/** Consuming a decision keeps the invariant. */
module AttentionResolve {
  import opened EventJournal
  import opened AttentionModel
  import opened AttentionSteps
  import opened AttentionInvariant

  predicate ResolveTouches(w: View, op: Op, x: StreamId)
    requires op.Resolve? && w.packet.Some?
  {
    || x == DecisionStream(w.decisionId)
    || (w.material && x == IndexStream(w.runId))
    || (w.kind == ApprovalKind && w.packet.value.Exact? && x == Reservation(w.packet.value))
    || (op.terminal.ApprovalAccepted? && x == RunStream(w.packet.value.runId))
  }

  /** What consuming a decision does to the current store, stale reads notwithstanding. */
  ghost predicate Resolves(s: Streams, s': Streams, w: View, op: Op) {
    && op.Resolve? && IsTerminal(op.terminal) && |op.ids| >= 6
    && ViewAt(s, op.decisionId) == Projected(w) && w.decisionId == op.decisionId
    && w.packet.Some? && (w.kind == ApprovalKind <==> w.packet.value.Exact?) && w.kind != AdvisoryKind
    && w.packet.value.decisionId == w.decisionId && w.material == w.packet.value.Material()
    && var p, es := w.packet.value, Read(s, DecisionStream(w.decisionId));
    && Read(s', DecisionStream(w.decisionId)) ==
         es + Stamp(DecisionStream(w.decisionId), |es|, TerminalEvents(w, op))
    && ViewAt(s', op.decisionId).Projected?
    && (w.material ==>
          var index := IndexAfter(w.runId, Read(s, IndexStream(w.runId)));
          && index.Some? && w.attentionId in index.value.pending
          && index.value.pending[w.attentionId].decisionId == w.decisionId
          && Read(s', IndexStream(w.runId)) == Read(s, IndexStream(w.runId))
               + Stamp(IndexStream(w.runId), |Read(s, IndexStream(w.runId))|, [IndexResolveEvent(w, op)]))
    && (w.kind == ApprovalKind ==>
          var reserved := ProjectReservation(Read(s, Reservation(p)));
          && reserved.Reserved? && reserved.view.decisionId == w.decisionId && reserved.view.packet == p
          && reserved.view.outcome.None?
          && Read(s', Reservation(p)) == Read(s, Reservation(p))
               + Stamp(Reservation(p), |Read(s, Reservation(p))|, [ConsumeEvent(p, op)]))
    && (op.terminal.ApprovalAccepted? || op.terminal.ApprovalRejected? ==>
          w.kind == ApprovalKind && |Read(s, RunStream(p.runId))| == p.runStreamVersion)
    && (op.terminal.ApprovalAccepted? ==>
          && ReadyFits(Read(s, RunStream(p.runId)), p)
          && Read(s', RunStream(p.runId)) ==
               Read(s, RunStream(p.runId)) + Stamp(RunStream(p.runId), p.runStreamVersion, [ReadyEvent(p, op)]))
    && (forall x :: !ResolveTouches(w, op, x) ==> Read(s', x) == Read(s, x))
  }

  lemma ResolveViewIsCurrent(s: Streams, v: Streams, w: View, op: Op)
    requires op.Resolve? && StaleView(v, s) && ResolveGuard(v, op) && DecisionOk(s, op.decisionId)
    requires ViewAt(v, op.decisionId) == Projected(w) && Accepts(s, ResolveWrites(v, w, op))
    ensures Read(v, DecisionStream(w.decisionId)) == Read(s, DecisionStream(w.decisionId))
    ensures w.material == w.packet.value.Material()
    ensures w.material ==> Read(v, IndexStream(w.runId)) == Read(s, IndexStream(w.runId))
    ensures w.kind == ApprovalKind ==> Read(v, Reservation(w.packet.value)) == Read(s, Reservation(w.packet.value))
    ensures op.terminal.ApprovalAccepted? ==>
              Read(v, RunStream(w.packet.value.runId)) == Read(s, RunStream(w.packet.value.runId))
    ensures op.terminal.ApprovalAccepted? || op.terminal.ApprovalRejected? ==>
              |Read(s, RunStream(w.packet.value.runId))| == w.packet.value.runStreamVersion
  {
    var ws, p := ResolveWrites(v, w, op), w.packet.value;
    hide Project, IndexAfter, RunBinding, ProjectReservation, ConsumeEvent, IndexResolveEvent, TerminalEvents,
         ReadyEvent;
    assert ws[0] in ws;
    Current(v, s, ws, ws[0]);
    if w.material {
      var index := Write(IndexStream(w.runId), |Read(v, IndexStream(w.runId))|, [IndexResolveEvent(w, op)]);
      assert index in ws;
      Current(v, s, ws, index);
    }
    if w.kind == ApprovalKind {
      var reserved := Write(Reservation(p), |Read(v, Reservation(p))|, [ConsumeEvent(p, op)]);
      assert reserved in ws;
      Current(v, s, ws, reserved);
    }
    if op.terminal.ApprovalAccepted? {
      Current(v, s, ws, ws[|ws| - 1]);
    } else if op.terminal.ApprovalRejected? {
      assert ws[|ws| - 1].stream == RunStream(p.runId);
    }
  }

  lemma ResolveNames(v: Streams, w: View, op: Op, x: StreamId)
    requires op.Resolve? && IsTerminal(op.terminal) && |op.ids| >= 6
    requires w.packet.Some? && (w.kind == ApprovalKind <==> w.packet.value.Exact?)
    requires op.terminal.ApprovalAccepted? || op.terminal.ApprovalRejected? ==> w.kind == ApprovalKind
    requires Named(ResolveWrites(v, w, op), x)
    ensures ResolveTouches(w, op, x) || (op.terminal.ApprovalRejected? && x == RunStream(w.packet.value.runId))
  {
  }

  lemma ResolveEffect(s: Streams, s': Streams, v: Streams, w: View, op: Op)
    requires op.Resolve? && Step(s, s', v, op) && DecisionOk(s, op.decisionId)
    requires ViewAt(v, op.decisionId) == Projected(w)
    ensures Resolves(s, s', w, op) && ViewAt(s, op.decisionId) == Projected(w)
  {
    var ws, p := ResolveWrites(v, w, op), w.packet.value;
    CommitEffect(s, ws);
    ResolveViewIsCurrent(s, v, w, op);
    hide Project, IndexAfter, RunBinding, ProjectReservation, ConsumeEvent, IndexResolveEvent, TerminalEvents,
         ReadyEvent, Applied, Accepts, Stamp;
    var decision := Write(DecisionStream(w.decisionId), w.streamVersion, TerminalEvents(w, op));
    assert decision in ws;
    if w.material {
      assert Write(IndexStream(w.runId), |Read(v, IndexStream(w.runId))|, [IndexResolveEvent(w, op)]) in ws;
    }
    if w.kind == ApprovalKind {
      assert Write(Reservation(p), |Read(v, Reservation(p))|, [ConsumeEvent(p, op)]) in ws;
    }
    if op.terminal.ApprovalAccepted? {
      assert Write(RunStream(p.runId), p.runStreamVersion, [ReadyEvent(p, op)]) in ws;
    }
    if op.terminal.ApprovalRejected? {
      var run := Write(RunStream(p.runId), p.runStreamVersion, []);
      assert run in ws;
      EmptyWrite(s, s', ws, run);
    }
    hide ResolveWrites, Read;
    forall x | !ResolveTouches(w, op, x) ensures Read(s', x) == Read(s, x) {
      if Named(ws, x) {
        ResolveNames(v, w, op, x);
      }
    }
  }

  lemma EmptyWrite(s: Streams, s': Streams, ws: Commit, w: Write<StreamId, Payload>)
    requires Committed(s, s', ws) && w in ws && w.events == []
    ensures Read(s', w.stream) == Read(s, w.stream)
  {
    assert Stamp<StreamId, Payload>(w.stream, |Read(s, w.stream)|, w.events) == [];
  }

  /** The view a consumed decision moves to. */
  ghost predicate Moves(s: Streams, s': Streams, w: View, op: Op) {
    && op.Resolve? && ViewAt(s', w.decisionId).Projected? && ViewAt(s, w.decisionId) == Projected(w)
    && w.status == Pending && op.resolution != Pending
    && var w' := ViewAt(s', w.decisionId).view;
    && w' == w.(status := op.resolution, resolution := w'.resolution,
                streamVersion := |Read(s', DecisionStream(w.decisionId))|)
    && (op.terminal.ApprovalAccepted? ==> w.packet == Some(op.terminal.packet))
    && (w.kind == ApprovalKind ==> (op.resolution == Accepted <==> op.terminal.ApprovalAccepted?)
                                   && (op.resolution == Rejected <==> op.terminal.ApprovalRejected?))
  }

  lemma ResolveMoves(s: Streams, s': Streams, w: View, op: Op)
    requires Resolves(s, s', w, op)
    ensures Moves(s, s', w, op)
  {
    var es := Read(s, DecisionStream(w.decisionId));
    ConsumeProjection(es, Stamp(DecisionStream(w.decisionId), |es|, TerminalEvents(w, op)), op.resolution);
  }

  lemma ResolveKeepsDecision(s: Streams, s': Streams, w: View, op: Op, d: Id)
    requires Resolves(s, s', w, op) && DecisionOk(s, d)
    ensures DecisionOk(s', d)
  {
    ResolveMoves(s, s', w, op);
    hide Project, IndexAfter, RunBinding, ProjectReservation, Stamp;
  }

  lemma ResolveKeepsIdentity(s: Streams, s': Streams, w: View, op: Op, a: Id)
    requires Resolves(s, s', w, op) && IdentityOk(s, a) && WarningOk(s, a)
    ensures IdentityOk(s', a) && WarningOk(s', a)
  {
    ResolveMoves(s, s', w, op);
    hide Project, IndexAfter, RunBinding, ProjectReservation, Stamp;
  }

  lemma ReservationConsumes(es: seq<Event>, p: Packet, op: Op)
    requires p.Exact? && op.Resolve? && IsTerminal(op.terminal) && |op.ids| >= 6
    requires ProjectReservation(es).Reserved? && ProjectReservation(es).view.outcome.None?
    requires ProjectReservation(es).view.runId == p.runId
             && ProjectReservation(es).view.approvalRequestEventId == p.approvalRequestEventId
             && ProjectReservation(es).view.decisionId == p.decisionId
    ensures ProjectReservation(es + Stamp(Reservation(p), |es|, [ConsumeEvent(p, op)]))
            == Reserved(ProjectReservation(es).view.(outcome := Some(op.resolution), streamVersion := 2))
  {
  }

  lemma ResolveKeepsReservation(s: Streams, s': Streams, w: View, op: Op, r: Id, q: Id)
    requires Resolves(s, s', w, op) && ReservationOk(s, r, q)
    ensures ReservationOk(s', r, q)
  {
    ResolveMoves(s, s', w, op);
    if w.kind == ApprovalKind && ReservationStream(r, q) == Reservation(w.packet.value) {
      ReservationConsumes(Read(s, ReservationStream(r, q)), w.packet.value, op);
    }
    hide Project, IndexAfter, RunBinding, ProjectReservation, ConsumeEvent;
  }

  lemma ResolveKeepsApproval(s: Streams, s': Streams, w: View, op: Op, d: Id)
    requires Resolves(s, s', w, op) && ApprovalReservedOk(s, d)
    requires forall r, q :: ReservationOk(s, r, q)
    ensures ApprovalReservedOk(s', d)
  {
    ResolveMoves(s, s', w, op);
    if w.kind == ApprovalKind {
      assert ReservationOk(s, w.packet.value.runId, w.packet.value.approvalRequestEventId);
      ReservationConsumes(Read(s, Reservation(w.packet.value)), w.packet.value, op);
    }
    hide Project, IndexAfter, RunBinding, ProjectReservation, ConsumeEvent;
  }

  lemma ResolveKeepsAcceptance(s: Streams, s': Streams, w: View, op: Op, d: Id)
    requires Resolves(s, s', w, op) && AcceptanceOk(s, d)
    ensures AcceptanceOk(s', d)
  {
    ResolveMoves(s, s', w, op);
    hide Project, IndexAfter, ProjectReservation, ConsumeEvent, IndexResolveEvent;
    if d == w.decisionId {
      var es := Read(s, DecisionStream(d));
      assert forall i :: 0 <= i < |es| ==> Read(s', DecisionStream(d))[i] == es[i];
      if op.terminal.ApprovalAccepted? {
        var acceptance := Read(s', DecisionStream(d))[|es|];
        assert ReadyFor(Read(s', RunStream(w.packet.value.runId)), w.packet.value, acceptance);
      }
    }
  }

  lemma ResolveKeepsReady(s: Streams, s': Streams, w: View, op: Op, r: Id)
    requires Resolves(s, s', w, op) && ReadyOk(s, r)
    ensures ReadyOk(s', r)
  {
    ResolveMoves(s, s', w, op);
    hide Project, IndexAfter, ProjectReservation, ConsumeEvent, IndexResolveEvent;
    var run, run' := Read(s, RunStream(r)), Read(s', RunStream(r));
    forall j | 0 <= j < |run'| && run'[j].payload.RunReady?
      ensures AcceptedAs(Read(s', DecisionStream(run'[j].payload.approvalDecisionId)), run'[j], r, j)
    {
      var d := run'[j].payload.approvalDecisionId;
      var es := Read(s, DecisionStream(d));
      if j < |run| {
        assert run'[j] == run[j];
        assert AcceptedAs(es, run[j], r, j);
        var i :| 0 <= i < |es| && es[i].payload.ApprovalAccepted?
          && es[i].eventId == run[j].payload.approvalDecisionEventId
          && es[i].payload.packet == run[j].payload.packet;
        assert Read(s', DecisionStream(d))[i] == es[i];
      } else {
        assert Read(s', DecisionStream(d))[|es|].payload == op.terminal;
      }
    }
  }

  // ---------- The index ----------

  lemma IndexAfterResolve(es: seq<Event>, w: View, op: Op)
    requires op.Resolve? && IsTerminal(op.terminal) && |op.ids| >= 6
    requires IndexAfter(w.runId, es).Some? && w.attentionId in IndexAfter(w.runId, es).value.pending
    requires IndexAfter(w.runId, es).value.pending[w.attentionId].decisionId == w.decisionId
    ensures var before := IndexAfter(w.runId, es).value;
      IndexAfter(w.runId, es + Stamp(IndexStream(w.runId), |es|, [IndexResolveEvent(w, op)]))
        == Some(before.(pending := before.pending - {w.attentionId}))
  {
    hide IndexAfter;
    var added := Stamp(IndexStream(w.runId), |es|, [IndexResolveEvent(w, op)]);
    assert added == [added[0]];
    IndexSnoc(w.runId, es, added[0]);
  }

  /** Consuming closes its own attention and no other. */
  ghost predicate Closes(s: Streams, s': Streams, w: View, r: Id, a: Id) {
    && (OpenMaterial(s', r, a) <==> OpenMaterial(s, r, a) && a != w.attentionId)
    && Owner(s', a) == Owner(s, a) && ReservedIn(s', r, a) == ReservedIn(s, r, a)
    && (OpenMaterial(s', r, a) ==> ViewAt(s', Owner(s, a).value) == ViewAt(s, Owner(s, a).value))
    && (r == w.runId && a == w.attentionId && !w.material ==> !OpenMaterial(s, r, a))
    && (r != w.runId && a == w.attentionId ==> !OpenMaterial(s, r, a))
  }

  lemma ResolveCloses(s: Streams, s': Streams, w: View, op: Op, r: Id, a: Id)
    requires Resolves(s, s', w, op) && DecisionOk(s, w.decisionId)
    ensures Closes(s, s', w, r, a)
  {
    ResolveMoves(s, s', w, op);
    hide Project, IndexAfter, RunBinding, ProjectReservation, Stamp;
  }

  lemma ClosedIndex(s: Streams, s': Streams, w: View, r: Id)
    requires IndexOk(s, r) && forall a :: Closes(s, s', w, r, a)
    requires var before, index := IndexAfter(r, Read(s, IndexStream(r))), IndexAfter(r, Read(s', IndexStream(r)));
      index == before
      || (r == w.runId && w.material
          && index == Some(before.value.(pending := before.value.pending - {w.attentionId})))
    requires r == w.runId && w.material ==>
      IndexAfter(r, Read(s', IndexStream(r))) != IndexAfter(r, Read(s, IndexStream(r)))
        || !OpenMaterial(s, r, w.attentionId)
    ensures IndexOk(s', r)
  {
    hide Project, IndexAfter, Owner, IdentityTaken, ReservedIn, ViewAt, Read;
    var index := IndexAfter(r, Read(s', IndexStream(r)));
    forall a ensures a in index.value.known ==> ReservedIn(s', r, a)
      ensures a in index.value.pending <==> OpenMaterial(s', r, a) {
      assert Closes(s, s', w, r, a);
    }
    forall a | a in index.value.pending
      ensures index.value.pending[a] == ItemOf(ViewAt(s', Owner(s', a).value).view) {
      assert Closes(s, s', w, r, a);
    }
  }

  lemma ResolveKeepsIndex(s: Streams, s': Streams, w: View, op: Op, r: Id)
    requires Resolves(s, s', w, op) && IndexOk(s, r)
    requires forall a :: Closes(s, s', w, r, a)
    ensures IndexOk(s', r)
  {
    if w.material {
      IndexAfterResolve(Read(s, IndexStream(w.runId)), w, op);
    }
    hide IndexOk, Closes, Project, IndexAfter, RunBinding, ProjectReservation, OpenMaterial, Stamp;
    ClosedIndex(s, s', w, r);
  }

  lemma ResolvePreserves(s: Streams, s': Streams, w: View, op: Op)
    requires Resolves(s, s', w, op) && Inv(s) && Contiguous(s')
    ensures Inv(s')
  {
    assert DecisionOk(s, w.decisionId);
    hide Resolves, DecisionOk, WarningOk, IdentityOk, IndexOk, ReservationOk, ApprovalReservedOk, AcceptanceOk, ReadyOk;
    forall d ensures DecisionOk(s', d) && ApprovalReservedOk(s', d) && AcceptanceOk(s', d) {
      ResolveKeepsDecision(s, s', w, op, d);
      ResolveKeepsApproval(s, s', w, op, d);
      ResolveKeepsAcceptance(s, s', w, op, d);
    }
    forall a ensures WarningOk(s', a) && IdentityOk(s', a) { ResolveKeepsIdentity(s, s', w, op, a); }
    forall r, q ensures ReservationOk(s', r, q) { ResolveKeepsReservation(s, s', w, op, r, q); }
    forall r ensures IndexOk(s', r) && ReadyOk(s', r) {
      forall a ensures Closes(s, s', w, r, a) { ResolveCloses(s, s', w, op, r, a); }
      ResolveKeepsIndex(s, s', w, op, r);
      ResolveKeepsReady(s, s', w, op, r);
    }
  }
}
