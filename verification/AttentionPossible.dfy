/** When a commit can be made at all: the guards admit exactly what the journal itself allows. */
module AttentionPossible {
  import opened EventJournal
  import opened AttentionModel
  import opened AttentionSteps
  import opened AttentionInvariant
  import opened AttentionRecord
  import opened AttentionRuns
  import opened AttentionProvenance
  import opened AttentionTheorems
  import History = AttentionHistory
  import Raise = AttentionRaise
  import Resolve = AttentionResolve

  /** Some client can make this commit on the journal as it is. */
  ghost predicate Possible(s: Streams, op: Op) {
    exists v, s' :: Step(s, s', v, op)
  }

  lemma CurrentViewSuffices(s: Streams, op: Op)
    requires Guard(s, op) && Accepts(s, Plan(s, op))
    ensures Possible(s, op)
  {
    History.SelfView(s);
    hide Guard, Plan, Accepts, Applied, StaleView;
    assert Step(s, Applied(s, Plan(s, op)), s, op);
  }

  // ---------- Raising ----------

  /** The run awaits exactly this packet now. */
  predicate AwaitsNow(run: seq<Event>, p: Packet)
    requires p.Exact?
  {
    Awaited(run, p) && |run| == p.runStreamVersion
  }

  lemma AwaitedExactly(s: Streams, p: Packet)
    requires Contiguous(s) && p.Exact?
    ensures var run := Read(s, RunStream(p.runId));
      RunBinding(run).Some? && BindingMatches(p, RunBinding(run).value) <==> AwaitsNow(run, p)
  {
    var run := Read(s, RunStream(p.runId));
    assert run != [] ==> run[|run| - 1].streamVersion == |run|;
  }

  /** Nothing bears the packet's identities yet, and an approval is awaited and unreserved. */
  predicate Raisable(s: Streams, p: Packet) {
    && p.Material() && ValidPacket(p)
    && Read(s, IdentityStream(p.attentionId)) == [] && Read(s, DecisionStream(p.decisionId)) == []
    && (p.Exact? ==> AwaitsNow(Read(s, RunStream(p.runId)), p) && Read(s, Reservation(p)) == [])
  }

  lemma RaisableSuffices(s: Streams, p: Packet, ids: seq<Id>)
    requires Inv(s) && Raisable(s, p) && |ids| >= 6
    ensures Possible(s, RaiseMaterial(p, ids))
  {
    assert IndexOk(s, p.runId);
    if p.Exact? {
      AwaitedExactly(s, p);
    }
    hide IndexAfter, RunBinding, Inv;
    CurrentViewSuffices(s, RaiseMaterial(p, ids));
  }

  /** Material attention can be raised exactly when it is free to be. */
  lemma RaisePossibleExactly(run: seq<Streams>, i: nat, p: Packet, ids: seq<Id>)
    requires Run(run) && i < |run|
    ensures Possible(run[i], RaiseMaterial(p, ids)) <==> |ids| >= 6 && Raisable(run[i], p)
  {
    var s := run[i];
    RunInvariant(run, i);
    if Possible(s, RaiseMaterial(p, ids)) {
      var v, s' :| Step(s, s', v, RaiseMaterial(p, ids));
      Raise.RaiseEffect(s, s', v, p, ids);
      if p.Exact? {
        AwaitedExactly(s, p);
      }
    }
    if |ids| >= 6 && Raisable(s, p) {
      RaisableSuffices(s, p, ids);
    }
  }

  // ---------- Deciding ----------

  /** The view a decision would reach by `terminal`. */
  predicate Decidable(w: View, terminal: Payload, resolution: Status, reached: Resolution) {
    w.status == Pending && Decides(terminal, w.(status := resolution, resolution := reached))
  }

  lemma DecidesElsewhere(terminal: Payload, w: View, w': View)
    requires w' == w.(streamVersion := w'.streamVersion) && Decides(terminal, w)
    ensures Decides(terminal, w')
  {
  }

  /** A pending decision takes any event that decides it, together with the resolution. */
  lemma DecidableReplays(es: seq<Event>, w: View, op: Op, reached: Resolution)
    requires Project(es) == Projected(w) && op.Resolve? && IsTerminal(op.terminal) && |op.ids| >= 6
    requires w.kind != AdvisoryKind && Decidable(w, op.terminal, op.resolution, reached)
    ensures Project(es + Stamp(DecisionStream(w.decisionId), |es|, TerminalEvents(w, op))).Projected?
  {
    hide Project, Decides, OpensQuestion, OpensApproval;
    var tail := Stamp(DecisionStream(w.decisionId), |es|, TerminalEvents(w, op));
    var w' := w.(status := op.resolution, resolution := reached, streamVersion := |es| + 2);
    ProjectionTells(es, w);
    DecidesElsewhere(op.terminal, w.(status := op.resolution, resolution := reached), w');
    var n, all := OpeningLength(w.kind), es + tail;
    PendingIsOpening(es, w);
    OpensLonger(es, tail, w, w');
    assert all[n..] == tail;
    forall i | 0 <= i < |all| ensures InPlace(all, i, w') {
      if i < |es| {
        assert all[i] == es[i] && InPlace(es, i, w);
      }
    }
    ProjectionTells(all, w');
  }

  lemma PendingIsOpening(es: seq<Event>, w: View)
    requires Tells(es, w) && w.status == Pending
    ensures |es| == OpeningLength(w.kind)
  {
  }

  lemma OpensLonger(es: seq<Event>, tail: seq<Event>, w: View, w': View)
    requires |es| >= OpeningLength(w.kind) && OpensAs(es, w)
    requires w' == w.(status := w'.status, resolution := w'.resolution, streamVersion := w'.streamVersion)
    ensures OpensAs(es + tail, w')
  {
    assert forall i :: 0 <= i < |es| ==> (es + tail)[i] == es[i];
  }

  /** A run that awaited the packet and has not moved since still awaits it. */
  lemma StillAwaited(run: seq<Streams>, i: nat, d: Id)
    requires Run(run) && i < |run| && ViewAt(run[i], d).Projected? && ViewAt(run[i], d).view.kind == ApprovalKind
    ensures var w := ViewAt(run[i], d).view;
      && w.packet.Some? && w.packet.value.Exact?
      && Awaited(Read(run[i], RunStream(w.packet.value.runId)), w.packet.value)
  {
    hide Project, Run, Inv;
    var es, w := Read(run[i], DecisionStream(d)), ViewAt(run[i], d).view;
    ProjectionTells(es, w);
    RunDocumented(run, i, DecisionStream(d), 0);
  }

  lemma AwaitedFits(s: Streams, p: Packet)
    requires p.Exact? && AwaitsNow(Read(s, RunStream(p.runId)), p)
    ensures ReadyFits(Read(s, RunStream(p.runId)), p)
  {
  }

  /** The decision is pending, this event decides it, and what concerns the run comes at the packet's version. */
  ghost predicate Resolvable(s: Streams, op: Op)
    requires op.Resolve?
  {
    && IsTerminal(op.terminal) && |op.ids| >= 6 && ViewAt(s, op.decisionId).Projected?
    && var w := ViewAt(s, op.decisionId).view;
    && (exists reached :: Decidable(w, op.terminal, op.resolution, reached))
    && (op.terminal.ApprovalAccepted? || op.terminal.ApprovalRejected? ==>
          && w.packet.Some? && w.packet.value.Exact?
          && |Read(s, RunStream(w.packet.value.runId))| == w.packet.value.runStreamVersion)
  }

  /** What a pending decision that can be decided holds: its place in the index and in its reservation. */
  ghost predicate Holds(s: Streams, w: View, op: Op) {
    && op.Resolve? && IsTerminal(op.terminal) && |op.ids| >= 6
    && ViewAt(s, op.decisionId) == Projected(w) && w.decisionId == op.decisionId
    && w.streamVersion == |Read(s, DecisionStream(op.decisionId))|
    && w.packet.Some? && (w.kind == ApprovalKind <==> w.packet.value.Exact?)
    && w.material == w.packet.value.Material() && w.packet.value.runId == w.runId
    && (w.material ==>
          var index := IndexAfter(w.runId, Read(s, IndexStream(w.runId)));
          index.Some? && w.attentionId in index.value.pending
          && index.value.pending[w.attentionId].decisionId == op.decisionId)
    && (w.kind == ApprovalKind ==>
          var reserved := ProjectReservation(Read(s, Reservation(w.packet.value)));
          reserved.Reserved? && reserved.view.decisionId == op.decisionId
          && reserved.view.packet == w.packet.value && reserved.view.outcome.None?)
  }

  lemma PendingHolds(s: Streams, w: View, op: Op)
    requires Inv(s) && op.Resolve? && IsTerminal(op.terminal) && |op.ids| >= 6
    requires ViewAt(s, op.decisionId) == Projected(w) && w.status == Pending
    ensures Holds(s, w, op)
  {
    assert DecisionOk(s, op.decisionId);
    assert IndexOk(s, w.runId);
    assert w.material ==> OpenMaterial(s, w.runId, w.attentionId);
    hide Project, IndexAfter, ProjectReservation;
    if w.kind == ApprovalKind {
      var p := w.packet.value;
      assert ApprovalReservedOk(s, op.decisionId) && ReservationOk(s, p.runId, p.approvalRequestEventId);
    }
  }

  lemma HoldsGuard(s: Streams, w: View, op: Op)
    requires Holds(s, w, op)
    requires var es := Read(s, DecisionStream(op.decisionId));
      Project(es + Stamp(DecisionStream(op.decisionId), |es|, TerminalEvents(w, op))).Projected?
    requires op.terminal.ApprovalAccepted? || op.terminal.ApprovalRejected? ==>
               w.kind == ApprovalKind && |Read(s, RunStream(w.packet.value.runId))| == w.packet.value.runStreamVersion
    requires op.terminal.ApprovalAccepted? ==> ReadyFits(Read(s, RunStream(w.packet.value.runId)), w.packet.value)
    ensures Guard(s, op) && Accepts(s, Plan(s, op))
  {
    hide Project, IndexAfter, ProjectReservation, ReadyFits, TerminalEvents, IndexResolveEvent, ConsumeEvent,
         ReadyEvent, ResolveWrites;
    assert Guard(s, op) && Plan(s, op) == ResolveWrites(s, w, op);
    HoldsAccepted(s, w, op);
  }

  lemma HoldsAccepted(s: Streams, w: View, op: Op)
    requires Holds(s, w, op)
    requires op.terminal.ApprovalAccepted? || op.terminal.ApprovalRejected? ==>
               w.kind == ApprovalKind && |Read(s, RunStream(w.packet.value.runId))| == w.packet.value.runStreamVersion
    ensures Accepts(s, ResolveWrites(s, w, op))
  {
    hide Project, IndexAfter, ProjectReservation, TerminalEvents, IndexResolveEvent, ConsumeEvent, ReadyEvent;
  }

  lemma ResolvableSuffices(s: Streams, op: Op)
    requires Inv(s) && op.Resolve? && Resolvable(s, op)
    requires var w := ViewAt(s, op.decisionId).view;
      w.kind == ApprovalKind ==> w.packet.Some? && w.packet.value.Exact?
                                 && Awaited(Read(s, RunStream(w.packet.value.runId)), w.packet.value)
    ensures Possible(s, op)
  {
    var w, es := ViewAt(s, op.decisionId).view, Read(s, DecisionStream(op.decisionId));
    var reached :| Decidable(w, op.terminal, op.resolution, reached);
    assert DecisionOk(s, op.decisionId);
    hide Inv, Project, IndexAfter, ProjectReservation, ReadyFits, TerminalEvents, Guard, Plan, Accepts, Holds;
    PendingHolds(s, w, op);
    DecidableReplays(es, w, op, reached);
    if op.terminal.ApprovalAccepted? {
      AwaitedFits(s, w.packet.value);
    }
    HoldsGuard(s, w, op);
    CurrentViewSuffices(s, op);
  }

  lemma ResolvedWasResolvable(s: Streams, s': Streams, v: Streams, op: Op)
    requires Inv(s) && op.Resolve? && Step(s, s', v, op)
    ensures Resolvable(s, op)
  {
    StepActsAtomically(s, s', v, op);
    var w, d := ViewAt(s, op.decisionId).view, op.decisionId;
    Resolve.ResolveMoves(s, s', w, op);
    hide Step, Inv, Project, IndexAfter, ProjectReservation, ReadyFits, Decides;
    var es, es', w' := Read(s, DecisionStream(d)), Read(s', DecisionStream(d)), ViewAt(s', d).view;
    assert es'[|es|].payload == op.terminal;
    DecidedAs(es', |es|);
    DecidesElsewhere(op.terminal, w', w'.(streamVersion := w.streamVersion));
    assert Decidable(w, op.terminal, op.resolution, w'.resolution);
  }

  /** A decision can be consumed exactly when it is pending and the event is one that decides it; an approval is
    * accepted or rejected only while its run has not moved. */
  lemma ResolvePossibleExactly(run: seq<Streams>, i: nat, op: Op)
    requires Run(run) && i < |run| && op.Resolve?
    ensures Possible(run[i], op) <==> Resolvable(run[i], op)
  {
    var s := run[i];
    RunInvariant(run, i);
    hide Inv, Step, Resolvable;
    if Possible(s, op) {
      var v, s' :| Step(s, s', v, op);
      ResolvedWasResolvable(s, s', v, op);
    }
    if Resolvable(s, op) {
      assert ViewAt(s, op.decisionId).Projected? by { ResolvableViews(s, op); }
      if ViewAt(s, op.decisionId).view.kind == ApprovalKind {
        StillAwaited(run, i, op.decisionId);
      }
      ResolvableSuffices(s, op);
    }
  }

  lemma ResolvableViews(s: Streams, op: Op)
    requires op.Resolve? && Resolvable(s, op)
    ensures ViewAt(s, op.decisionId).Projected?
  {
  }

  // ---------- Admitting ----------

  /** Decision `d` stands in the way of the considered scopes. */
  predicate StandsInTheWay(s: Streams, r: Id, d: Id, considered: set<Id>) {
    && Blocks(s, r, d)
    && (ViewAt(s, d).view.affectedScopes + ViewAt(s, d).view.dependentScopes) * considered != {}
  }

  ghost predicate Admissible(s: Streams, op: Op)
    requires op.Admit?
  {
    && |op.ids| >= 6 && !EverAdmitted(Read(s, IndexStream(op.runId)), op.admissionId)
    && forall d :: !StandsInTheWay(s, op.runId, d, {op.scopeId} + op.dependencies)
  }

  lemma UnblockedExactly(run: seq<Streams>, i: nat, r: Id, considered: set<Id>)
    requires Run(run) && i < |run|
    ensures IndexAfter(r, Read(run[i], IndexStream(r))).Some?
    ensures Blockers(IndexAfter(r, Read(run[i], IndexStream(r))).value.pending, considered) == {} <==>
              forall d :: !StandsInTheWay(run[i], r, d, considered)
  {
    IndexAgreesWithDecisions(run, i, r);
    hide Run, Project, IndexAfter;
    var pending := IndexAfter(r, Read(run[i], IndexStream(r))).value.pending;
    var blockers := Blockers(pending, considered);
    if blockers != {} {
      var a :| a in blockers;
      assert StandsInTheWay(run[i], r, pending[a].decisionId, considered);
    }
    if d :| StandsInTheWay(run[i], r, d, considered) {
      assert ViewAt(run[i], d).view.attentionId in blockers;
    }
  }

  lemma UnadmittedExactly(r: Id, es: seq<Event>, admissionId: Id)
    requires IndexAfter(r, es).Some?
    ensures admissionId in IndexAfter(r, es).value.admissions <==> EverAdmitted(es, admissionId)
  {
    IndexTells(r, es, IndexAfter(r, es).value);
  }

  /** A scope can be admitted exactly when its admission identity is unused and no pending material decision touches
    * it or its dependencies. */
  lemma AdmitPossibleExactly(run: seq<Streams>, i: nat, op: Op)
    requires Run(run) && i < |run| && op.Admit?
    ensures Possible(run[i], op) <==> Admissible(run[i], op)
  {
    var s, r := run[i], op.runId;
    RunInvariant(run, i);
    UnblockedExactly(run, i, r, {op.scopeId} + op.dependencies);
    UnadmittedExactly(r, Read(s, IndexStream(r)), op.admissionId);
    hide Run, Inv, IndexAfter, Blockers, StandsInTheWay, EverAdmitted;
    if Possible(s, op) {
      var v, s' :| Step(s, s', v, op);
      AdmitEffect(s, s', v, op);
    }
    if Admissible(s, op) {
      CurrentViewSuffices(s, op);
    }
  }
}
