/** Every run of interleaved clients keeps the invariant; what that means for the protocol. */
module AttentionRuns {
  import opened EventJournal
  import opened AttentionModel
  import opened AttentionSteps
  import opened AttentionInvariant
  import Raise = AttentionRaise
  import Resolve = AttentionResolve

  /** The commit gives the free identity `a` to the warning it raises. */
  predicate TakenByWarning(s: Streams, s': Streams, a: Id) {
    && Read(s, IdentityStream(a)) == [] && IdentityOk(s', a) && Owner(s', a) == None
    && var warning, identity := Read(s', AdvisoryStream(a)), Read(s', IdentityStream(a));
    && |identity| == 1 && warning != [] && warning[0].payload.AttentionRaised?
    && identity[0].payload == IdentityReserved(a, warning[0].payload.runId, AdvisoryKind, AgentTrail, None,
                                               warning[0].eventId, warning[0].payload.commandId)
  }

  /** Commits that leave decisions and reservations alone, and only take unowned identities. */
  ghost predicate Quiet(s: Streams, s': Streams) {
    && (forall d :: Read(s', DecisionStream(d)) == Read(s, DecisionStream(d)))
    && (forall r, q :: Read(s', ReservationStream(r, q)) == Read(s, ReservationStream(r, q)))
    && (forall a :: Read(s', IdentityStream(a)) == Read(s, IdentityStream(a)) || TakenByWarning(s, s', a))
    && (forall a :: Read(s', AdvisoryStream(a)) == Read(s, AdvisoryStream(a)) || WarningOk(s', a))
    && (forall r :: QuietIndex(s, s', r) && QuietRun(s, s', r))
  }

  /** The pending map and the known identities of the index do not move. */
  predicate QuietIndex(s: Streams, s': Streams, r: Id) {
    var before, index := IndexAfter(r, Read(s, IndexStream(r))), IndexAfter(r, Read(s', IndexStream(r)));
    before.Some? ==>
      index.Some? && index.value.pending == before.value.pending && index.value.known == before.value.known
  }

  predicate QuietRun(s: Streams, s': Streams, r: Id) {
    var before, after := Read(s, RunStream(r)), Read(s', RunStream(r));
    before <= after && forall j :: |before| <= j < |after| ==> !after[j].payload.RunReady?
  }

  lemma QuietKeepsDecision(s: Streams, s': Streams, d: Id)
    requires Quiet(s, s') && DecisionOk(s, d) && ApprovalReservedOk(s, d) && AcceptanceOk(s, d)
    ensures DecisionOk(s', d) && ApprovalReservedOk(s', d) && AcceptanceOk(s', d)
  {
    hide Project, IndexAfter, WarningOk, IdentityOk, ProjectReservation;
    forall i | 0 <= i < |Read(s', DecisionStream(d))| && Read(s', DecisionStream(d))[i].payload.ApprovalAccepted?
      ensures var acceptance := Read(s', DecisionStream(d))[i];
        acceptance.payload.packet.Exact? && acceptance.payload.packet.decisionId == d
        && ReadyFor(Read(s', RunStream(acceptance.payload.packet.runId)), acceptance.payload.packet, acceptance)
    {
      assert QuietRun(s, s', Read(s', DecisionStream(d))[i].payload.packet.runId);
    }
  }

  lemma QuietKeepsIdentity(s: Streams, s': Streams, a: Id)
    requires Quiet(s, s') && IdentityOk(s, a) && WarningOk(s, a)
    ensures IdentityOk(s', a) && WarningOk(s', a)
  {
    hide Project, IndexAfter, ProjectReservation, QuietIndex, QuietRun;
  }

  lemma QuietKeepsIndex(s: Streams, s': Streams, r: Id)
    requires Quiet(s, s') && IndexOk(s, r)
    ensures IndexOk(s', r)
  {
    assert QuietIndex(s, s', r);
    hide Project, IndexAfter, WarningOk, ProjectReservation, QuietRun;
    forall a ensures OpenMaterial(s', r, a) == OpenMaterial(s, r, a) {}
  }

  lemma QuietKeepsRun(s: Streams, s': Streams, r: Id)
    requires Quiet(s, s') && ReadyOk(s, r)
    ensures ReadyOk(s', r)
  {
    assert QuietRun(s, s', r);
    hide Project, IndexAfter, WarningOk, IdentityOk, ProjectReservation;
  }

  lemma QuietKeepsReservation(s: Streams, s': Streams, r: Id, q: Id)
    requires Quiet(s, s') && ReservationOk(s, r, q)
    ensures ReservationOk(s', r, q)
  {
    hide Project, IndexAfter, WarningOk, IdentityOk, ProjectReservation, QuietRun, QuietIndex;
  }

  lemma QuietPreserves(s: Streams, s': Streams)
    requires Quiet(s, s') && Inv(s) && Contiguous(s')
    ensures Inv(s')
  {
    hide Quiet, DecisionOk, WarningOk, IdentityOk, IndexOk, ReservationOk, ApprovalReservedOk, AcceptanceOk, ReadyOk;
    forall d ensures DecisionOk(s', d) && ApprovalReservedOk(s', d) && AcceptanceOk(s', d) {
      QuietKeepsDecision(s, s', d);
    }
    forall a ensures WarningOk(s', a) && IdentityOk(s', a) { QuietKeepsIdentity(s, s', a); }
    forall r ensures IndexOk(s', r) { QuietKeepsIndex(s, s', r); }
    forall r ensures ReadyOk(s', r) { QuietKeepsRun(s, s', r); }
    forall r, q ensures ReservationOk(s', r, q) { QuietKeepsReservation(s, s', r, q); }
  }

  /** A commit that appends nothing to a decision, reservation or run stream. */
  lemma QuietElsewhere(s: Streams, s': Streams)
    requires forall x: StreamId :: x.DecisionStream? || x.ReservationStream? || x.RunStream? ==>
             Read(s', x) == Read(s, x)
    requires forall a :: Read(s', IdentityStream(a)) == Read(s, IdentityStream(a)) || TakenByWarning(s, s', a)
    requires forall a :: Read(s', AdvisoryStream(a)) == Read(s, AdvisoryStream(a)) || WarningOk(s', a)
    requires forall r :: QuietIndex(s, s', r)
    ensures Quiet(s, s')
  {
    hide Project, IndexAfter, WarningOk, IdentityOk, Owner, QuietIndex, Read;
  }

  lemma WarningProjects(op: Op)
    requires op.RaiseWarning? && |op.ids| >= 6
    ensures var es := Stamp(AdvisoryStream(op.attentionId), 0, [New(op.ids[0], WarningRaised(op), op.runId)]);
      Project(es) == Projected(View(AdvisoryKind, op.attentionId, op.attentionId, op.runId, Pending, 1, WaitForever,
        op.affected, op.dependent, false, None, NoResolution))
  {
    var es := Stamp(AdvisoryStream(op.attentionId), 0, [New(op.ids[0], WarningRaised(op), op.runId)]);
    assert Open(es) == Some(Opening(AdvisoryKind, None, WarningRaised(op), 1));
  }

  lemma WarningEffect(s: Streams, s': Streams, v: Streams, op: Op)
    requires op.RaiseWarning? && Step(s, s', v, op)
    ensures |op.ids| >= 6 && Read(s, IdentityStream(op.attentionId)) == []
    ensures Read(s', IdentityStream(op.attentionId)) == Stamp(IdentityStream(op.attentionId), 0,
              IdentityWrite(op.attentionId, op.runId, AdvisoryKind, AgentTrail, None, op.ids[0], op.commandId,
                            op.ids[3]).events)
    ensures Read(s', AdvisoryStream(op.attentionId)) ==
            Stamp(AdvisoryStream(op.attentionId), 0, [New(op.ids[0], WarningRaised(op), op.runId)])
    ensures forall x :: x == AdvisoryStream(op.attentionId) || x == IdentityStream(op.attentionId)
                        || Read(s', x) == Read(s, x)
  {
    var ws := Plan(v, op);
    CommitEffect(s, ws);
    hide Project, IndexAfter, Applied;
    assert ws[0] in ws && ws[1] in ws;
    Current(v, s, ws, ws[0]);
    assert forall x :: Named(ws, x) ==> x == AdvisoryStream(op.attentionId) || x == IdentityStream(op.attentionId);
  }

  lemma WarningTakes(s: Streams, s': Streams, v: Streams, op: Op)
    requires op.RaiseWarning? && Step(s, s', v, op)
    ensures TakenByWarning(s, s', op.attentionId) && WarningOk(s', op.attentionId)
  {
    WarningEffect(s, s', v, op);
    WarningProjects(op);
    hide Project, IndexAfter, Step;
  }

  lemma WarningRaises(s: Streams, s': Streams, v: Streams, op: Op)
    requires op.RaiseWarning? && Step(s, s', v, op)
    ensures Quiet(s, s')
    ensures forall r :: Read(s', IndexStream(r)) == Read(s, IndexStream(r))
  {
    WarningEffect(s, s', v, op);
    WarningTakes(s, s', v, op);
    hide Step, Quiet, TakenByWarning, WarningOk, IndexAfter, Stamp, WarningRaised;
    QuietElsewhere(s, s');
  }

  lemma WarningResolves(s: Streams, s': Streams, v: Streams, op: Op)
    requires op.ResolveWarning? && Step(s, s', v, op) && WarningOk(s, op.attentionId)
    ensures Quiet(s, s')
    ensures forall r :: Read(s', IndexStream(r)) == Read(s, IndexStream(r))
  {
    var ws, a := Plan(v, op), op.attentionId;
    var es, added := Read(s, AdvisoryStream(a)), Stamp(AdvisoryStream(a), |Read(s, AdvisoryStream(a))|, ws[0].events);
    CommitEffect(s, ws);
    assert ws[0] in ws;
    Current(v, s, ws, ws[0]);
    OpenPrefix(es, added);
    assert Project(es + added).Projected? && Project(es + added).view.attentionId == a
           && Project(es + added).view.kind == AdvisoryKind && Project(es + added).view.streamVersion == |es| + 1;
    hide Project, IndexAfter, Applied, Open;
    assert forall x :: Named(ws, x) ==> x == AdvisoryStream(a);
    hide Quiet, Named;
    assert forall x :: x == AdvisoryStream(a) || Read(s', x) == Read(s, x);
    QuietElsewhere(s, s');
  }

  /** What an admission does to the current store: its guard held on the index it extends. */
  lemma AdmitEffect(s: Streams, s': Streams, v: Streams, op: Op)
    requires op.Admit? && Step(s, s', v, op)
    ensures Read(s, IndexStream(op.runId)) == Read(v, IndexStream(op.runId))
    ensures var es := Read(s, IndexStream(op.runId));
      Read(s', IndexStream(op.runId)) == es + Stamp(IndexStream(op.runId), |es|, [AdmitEvent(op, |es|)])
    ensures forall x :: x == IndexStream(op.runId) || Read(s', x) == Read(s, x)
  {
    hide Project, IndexAfter, Applied;
    var ws := Plan(v, op);
    CommitEffect(s, ws);
    assert ws[0] in ws;
    Current(v, s, ws, ws[0]);
    assert forall x :: Named(ws, x) ==> x == IndexStream(op.runId);
  }

  lemma IndexAfterAdmit(es: seq<Event>, op: Op)
    requires op.Admit? && |op.ids| >= 6
    requires IndexAfter(op.runId, es).Some? && op.admissionId !in IndexAfter(op.runId, es).value.admissions
    ensures var before := IndexAfter(op.runId, es).value;
      IndexAfter(op.runId, es + Stamp(IndexStream(op.runId), |es|, [AdmitEvent(op, |es|)]))
        == Some(before.(admissions := before.admissions + {op.admissionId}))
  {
    hide IndexAfter;
    var added := Stamp(IndexStream(op.runId), |es|, [AdmitEvent(op, |es|)]);
    assert added == [added[0]];
    IndexSnoc(op.runId, es, added[0]);
  }

  lemma AdmitIsQuiet(s: Streams, s': Streams, v: Streams, op: Op)
    requires op.Admit? && Step(s, s', v, op)
    ensures Quiet(s, s')
  {
    AdmitEffect(s, s', v, op);
    IndexAfterAdmit(Read(s, IndexStream(op.runId)), op);
    hide Project, IndexAfter, Applied, Step, Quiet;
    QuietElsewhere(s, s');
  }

  lemma AttemptIsQuiet(s: Streams, s': Streams, v: Streams, op: Op)
    requires op.RecordAttempt? && Step(s, s', v, op)
    ensures Quiet(s, s')
    ensures forall r :: Read(s', IndexStream(r)) == Read(s, IndexStream(r))
  {
    var ws := Plan(v, op);
    CommitEffect(s, ws);
    hide Project, IndexAfter, Applied;
    assert forall x :: Named(ws, x) ==> x == AttemptStream(op.attempt.decisionId, op.attempt.commandId);
    hide Quiet, Named, Step, Committed;
    QuietElsewhere(s, s');
  }

  lemma ForeignIsQuiet(s: Streams, s': Streams, v: Streams, op: Op)
    requires op.Foreign? && Step(s, s', v, op)
    ensures Quiet(s, s')
    ensures forall r :: Read(s', IndexStream(r)) == Read(s, IndexStream(r))
  {
    var ws := op.writes;
    CommitEffect(s, ws);
    hide Project, IndexAfter, Applied;
    forall x: StreamId | !x.RunStream? ensures Read(s', x) == Read(s, x) {
      if Named(ws, x) {
        var w :| w in ws && w.stream == x;
        assert ForeignWrite(w);
        Resolve.EmptyWrite(s, s', ws, w);
      }
    }
    forall r ensures QuietRun(s, s', r) {
      if Named(ws, RunStream(r)) {
        var w :| w in ws && w.stream == RunStream(r);
        assert ForeignWrite(w);
      }
    }
    hide Named, Step, Committed, Read, QuietRun, IdentityOk, WarningOk, Owner;
  }

  /** The admission `op` extends the index its guard was checked on. */
  ghost predicate Admission(s: Streams, s': Streams, op: Op) {
    && op.Admit? && |op.ids| >= 6 && AdmitGuard(s, op)
    && var es := Read(s, IndexStream(op.runId));
    && Read(s', IndexStream(op.runId)) == es + Stamp(IndexStream(op.runId), |es|, [AdmitEvent(op, |es|)])
    && (forall x :: x == IndexStream(op.runId) || Read(s', x) == Read(s, x))
  }

  ghost predicate SameIndexes(s: Streams, s': Streams) {
    forall r :: Read(s', IndexStream(r)) == Read(s, IndexStream(r))
  }

  /** Stale reads do not show: each accepted commit acts as if its client had read the current store. */
  ghost predicate ActsAtomically(s: Streams, s': Streams, op: Op) {
    match op
    case RaiseMaterial(p, ids) => |ids| >= 6 && p.Material() && Raise.Raises(s, s', p, ids)
    case RaiseAdvisory(p, ids) => |ids| >= 6 && !p.Material() && Raise.Raises(s, s', p, ids)
    case Resolve(d, _, _, _, _, _) => ViewAt(s, d).Projected? && Resolve.Resolves(s, s', ViewAt(s, d).view, op)
    case Admit(_, _, _, _, _, _, _) => Admission(s, s', op) && Quiet(s, s')
    case _ => Quiet(s, s') && SameIndexes(s, s')
  }

  lemma StepActsAtomically(s: Streams, s': Streams, v: Streams, op: Op)
    requires Step(s, s', v, op) && Inv(s)
    ensures ActsAtomically(s, s', op)
  {
    hide Raise.Raises, Resolve.Resolves, Quiet, Project, IndexAfter, Applied, Accepts;
    match op
    case RaiseMaterial(p, ids) => Raise.RaiseEffect(s, s', v, p, ids);
    case RaiseAdvisory(p, ids) => Raise.AdvisoryEffect(s, s', v, p, ids);
    case Resolve(d, _, _, _, _, _) =>
      assert DecisionOk(s, d);
      Resolve.ResolveEffect(s, s', v, ViewAt(v, d).view, op);
    case Admit(_, _, _, _, _, _, _) =>
      AdmitEffect(s, s', v, op);
      AdmitIsQuiet(s, s', v, op);
    case RaiseWarning(_, _, _, _, _, _, _) => WarningRaises(s, s', v, op);
    case ResolveWarning(a, _, _, _, _) =>
      assert WarningOk(s, a);
      WarningResolves(s, s', v, op);
    case RecordAttempt(_, _) => AttemptIsQuiet(s, s', v, op);
    case Foreign(_) => ForeignIsQuiet(s, s', v, op);
  }

  /** One commit of any client keeps the invariant. */
  lemma StepPreserves(s: Streams, s': Streams, v: Streams, op: Op)
    requires Step(s, s', v, op) && Inv(s)
    ensures Inv(s')
  {
    StepActsAtomically(s, s', v, op);
    AppliedContiguous(s, Plan(v, op));
    hide Raise.Raises, Resolve.Resolves, Quiet, Project, IndexAfter, Inv, Guard, Plan;
    if op.RaiseMaterial? || op.RaiseAdvisory? {
      Raise.RaisePreserves(s, s', op.packet, op.ids);
    } else if op.Resolve? {
      Resolve.ResolvePreserves(s, s', ViewAt(s, op.decisionId).view, op);
    } else {
      QuietPreserves(s, s');
    }
  }

  /** Safety over whole runs: any number of clients, any interleaving, any length. */
  lemma {:induction false} RunInvariant(run: seq<Streams>, i: nat)
    requires Run(run) && i < |run|
    ensures Inv(run[i])
  {
    if i > 0 {
      RunInvariant(run, i - 1);
      assert Next(run[i - 1], run[i]);
      var v, op :| Step(run[i - 1], run[i], v, op);
      StepPreserves(run[i - 1], run[i], v, op);
    }
  }
}
