/** What the invariant means to the users of the attention protocol. */
module AttentionTheorems {
  import opened EventJournal
  import opened AttentionModel
  import opened AttentionSteps
  import opened AttentionInvariant
  import opened AttentionRuns
  import Raise = AttentionRaise
  import Resolve = AttentionResolve

  /** Decision `d` is material, pending and belongs to run `r`. */
  predicate Blocks(s: Streams, r: Id, d: Id) {
    && ViewAt(s, d).Projected?
    && var w := ViewAt(s, d).view;
       w.material && w.status == Pending && w.runId == r
  }

  /** In every reachable journal the run index lists exactly the pending material decisions of its
    * run, under their own attention, with their own identity and scopes. */
  lemma IndexAgreesWithDecisions(run: seq<Streams>, i: nat, r: Id)
    requires Run(run) && i < |run|
    ensures var index := IndexAfter(r, Read(run[i], IndexStream(r)));
      && index.Some?
      && (forall a :: a in index.value.pending ==>
            var item := index.value.pending[a];
            Blocks(run[i], r, item.decisionId) && item == ItemOf(ViewAt(run[i], item.decisionId).view)
            && item.attentionId == a)
      && (forall d :: Blocks(run[i], r, d) ==>
            var w := ViewAt(run[i], d).view;
            w.attentionId in index.value.pending && index.value.pending[w.attentionId] == ItemOf(w)
              && w.decisionId == d)
  {
    RunInvariant(run, i);
    IndexAgreement(run[i], r);
  }

  lemma IndexAgreement(s: Streams, r: Id)
    requires IndexOk(s, r) && (forall d :: DecisionOk(s, d))
    ensures var index := IndexAfter(r, Read(s, IndexStream(r)));
      && index.Some?
      && (forall a :: a in index.value.pending ==>
            var item := index.value.pending[a];
            Blocks(s, r, item.decisionId) && item == ItemOf(ViewAt(s, item.decisionId).view) && item.attentionId == a)
      && (forall d :: Blocks(s, r, d) ==>
            var w := ViewAt(s, d).view;
            w.attentionId in index.value.pending && index.value.pending[w.attentionId] == ItemOf(w)
              && w.decisionId == d)
  {
    hide Project, IndexAfter;
    var index := IndexAfter(r, Read(s, IndexStream(r)));
    forall a | a in index.value.pending
      ensures var item := index.value.pending[a];
        Blocks(s, r, item.decisionId) && item == ItemOf(ViewAt(s, item.decisionId).view) && item.attentionId == a
    {
      assert OpenMaterial(s, r, a);
      assert DecisionOk(s, Owner(s, a).value);
    }
    forall d | Blocks(s, r, d)
      ensures var w := ViewAt(s, d).view;
        w.attentionId in index.value.pending && index.value.pending[w.attentionId] == ItemOf(w) && w.decisionId == d
    {
      assert DecisionOk(s, d);
      assert OpenMaterial(s, r, ViewAt(s, d).view.attentionId);
    }
  }

  /** An attention identity belongs to one decision or to one warning, never to two. */
  lemma AttentionOwnedOnce(run: seq<Streams>, i: nat, d: Id, e: Id, a: Id)
    requires Run(run) && i < |run|
    requires ViewAt(run[i], d).Projected? && ViewAt(run[i], d).view.attentionId == a
    ensures ViewAt(run[i], e).Projected? && ViewAt(run[i], e).view.attentionId == a ==> e == d
    ensures WarningAt(run[i], a).Absent?
  {
    RunInvariant(run, i);
    hide Project, IndexAfter;
    assert DecisionOk(run[i], d) && DecisionOk(run[i], e) && WarningOk(run[i], a);
  }

  lemma {:induction false} IndexRemembers(r: Id, es: seq<Event>, k: nat)
    requires IndexAfter(r, es).Some? && k < |es|
    ensures es[k].payload.IndexRaised? ==> es[k].payload.attentionId in IndexAfter(r, es).value.known
    ensures es[k].payload.ScopeAdmitted? ==> es[k].payload.admissionId in IndexAfter(r, es).value.admissions
  {
    if k < |es| - 1 {
      IndexRemembers(r, es[..|es| - 1], k);
    }
  }

  lemma {:induction false} IndexRaisesOnce(r: Id, es: seq<Event>, j: nat, k: nat)
    requires IndexAfter(r, es).Some? && j < k < |es|
    ensures es[j].payload.IndexRaised? && es[k].payload.IndexRaised? ==>
              es[j].payload.attentionId != es[k].payload.attentionId
    ensures es[j].payload.ScopeAdmitted? && es[k].payload.ScopeAdmitted? ==>
              es[j].payload.admissionId != es[k].payload.admissionId
  {
    var front := es[..|es| - 1];
    if k < |es| - 1 {
      IndexRaisesOnce(r, front, j, k);
    } else {
      IndexRemembers(r, front, j);
    }
  }

  /** No attention identity is ever raised twice, neither in one run index nor in two. */
  lemma AttentionRaisedOnce(run: seq<Streams>, i: nat, r: Id, j: nat, q: Id, k: nat)
    requires Run(run) && i < |run|
    requires j < |Read(run[i], IndexStream(r))| && Read(run[i], IndexStream(r))[j].payload.IndexRaised?
    requires k < |Read(run[i], IndexStream(q))| && Read(run[i], IndexStream(q))[k].payload.IndexRaised?
    requires Read(run[i], IndexStream(r))[j].payload.attentionId == Read(run[i], IndexStream(q))[k].payload.attentionId
    ensures r == q && j == k
  {
    RunInvariant(run, i);
    var es, fs := Read(run[i], IndexStream(r)), Read(run[i], IndexStream(q));
    assert IndexOk(run[i], r) && IndexOk(run[i], q);
    IndexRemembers(r, es, j);
    IndexRemembers(q, fs, k);
    assert ReservedIn(run[i], r, es[j].payload.attentionId) && ReservedIn(run[i], q, es[j].payload.attentionId);
    if j < k {
      IndexRaisesOnce(r, es, j, k);
    } else if k < j {
      IndexRaisesOnce(r, es, k, j);
    }
  }

  // ---------- Admission ----------

  /** Each admission identity is admitted at most once in its run. */
  lemma AdmittedOnce(run: seq<Streams>, i: nat, r: Id, j: nat, k: nat)
    requires Run(run) && i < |run| && j < k < |Read(run[i], IndexStream(r))|
    requires Read(run[i], IndexStream(r))[j].payload.ScopeAdmitted?
    requires Read(run[i], IndexStream(r))[k].payload.ScopeAdmitted?
    ensures Read(run[i], IndexStream(r))[j].payload.admissionId != Read(run[i], IndexStream(r))[k].payload.admissionId
  {
    RunInvariant(run, i);
    assert IndexOk(run[i], r);
    IndexRaisesOnce(r, Read(run[i], IndexStream(r)), j, k);
  }

  /** The commit from `s` to `s'` appends the admission `admitted` to the index of run `r`. */
  predicate Admits(s: Streams, s': Streams, r: Id, admitted: Payload) {
    var n := |Read(s, IndexStream(r))|;
    n < |Read(s', IndexStream(r))| && Read(s', IndexStream(r))[n].payload == admitted && admitted.ScopeAdmitted?
  }

  lemma OnlyAdmissionsAdmit(s: Streams, s': Streams, op: Op, r: Id, admitted: Payload)
    requires ActsAtomically(s, s', op) && Admits(s, s', r, admitted)
    ensures op.Admit? && op.runId == r && admitted == AdmitEvent(op, |Read(s, IndexStream(r))|).payload
  {
    hide Project, IndexAfter, Quiet, RunBinding, ProjectReservation;
  }

  /** Admission safety: at the very journal state a scope is admitted on, no pending material
    * decision of the run touches the scope or any of its dependencies. */
  lemma AdmissionSafety(run: seq<Streams>, i: nat, r: Id, admitted: Payload, d: Id)
    requires Run(run) && 0 < i < |run| && Admits(run[i - 1], run[i], r, admitted)
    requires Blocks(run[i - 1], r, d)
    ensures var w := ViewAt(run[i - 1], d).view;
      (w.affectedScopes + w.dependentScopes) * ({admitted.scopeId} + admitted.dependencies) == {}
  {
    hide Project, IndexAfter, Run, Quiet, Inv;
    var s := run[i - 1];
    var op := StepOf(run, i);
    OnlyAdmissionsAdmit(s, run[i], op, r, admitted);
    IndexAgreesWithDecisions(run, i - 1, r);
    var pending := IndexAfter(r, Read(s, IndexStream(r))).value.pending;
    var a := ViewAt(s, d).view.attentionId;
    assert a !in Blockers(pending, {admitted.scopeId} + admitted.dependencies);
  }

  /** The commit behind the `i`-th step of a run. */
  lemma StepOf(run: seq<Streams>, i: nat) returns (op: Op)
    requires Run(run) && 0 < i < |run|
    ensures ActsAtomically(run[i - 1], run[i], op) && Inv(run[i - 1])
  {
    RunInvariant(run, i - 1);
    assert Next(run[i - 1], run[i]);
    var v, o :| Step(run[i - 1], run[i], v, o);
    StepActsAtomically(run[i - 1], run[i], v, o);
    op := o;
  }

  // ---------- Consumption ----------

  lemma ConsumedStaysPut(s: Streams, s': Streams, op: Op, d: Id)
    requires ActsAtomically(s, s', op) && ViewAt(s, d).Projected? && ViewAt(s, d).view.status != Pending
    ensures Read(s', DecisionStream(d)) == Read(s, DecisionStream(d))
  {
    if op.Resolve? {
      Resolve.ResolveMoves(s, s', ViewAt(s, op.decisionId).view, op);
    }
    hide IndexAfter, RunBinding, ProjectReservation, QuietIndex, QuietRun, WarningOk, IdentityOk, Open, After;
  }

  /** A consumed decision never changes again, in any continuation of the run. */
  lemma {:induction false} ConsumedIsFinal(run: seq<Streams>, i: nat, j: nat, d: Id)
    requires Run(run) && i <= j < |run|
    requires ViewAt(run[i], d).Projected? && ViewAt(run[i], d).view.status != Pending
    ensures Read(run[j], DecisionStream(d)) == Read(run[i], DecisionStream(d))
  {
    hide Project, Run, ActsAtomically, Inv;
    if i < j {
      ConsumedIsFinal(run, i, j - 1, d);
      var op := StepOf(run, j);
      ConsumedStaysPut(run[j - 1], run[j], op, d);
    }
  }

  // ---------- Exact approvals ----------

  /** At most one decision is ever requested, hence accepted, per approval request of a run. */
  lemma OneDecisionPerRequest(run: seq<Streams>, i: nat, d: Id, e: Id)
    requires Run(run) && i < |run|
    requires ViewAt(run[i], d).Projected? && ViewAt(run[i], d).view.kind == ApprovalKind
    requires ViewAt(run[i], e).Projected? && ViewAt(run[i], e).view.kind == ApprovalKind
    requires ViewAt(run[i], d).view.runId == ViewAt(run[i], e).view.runId
    ensures var p, q := ViewAt(run[i], d).view.packet, ViewAt(run[i], e).view.packet;
      && p.Some? && p.value.Exact? && q.Some? && q.value.Exact?
      && (p.value.approvalRequestEventId == q.value.approvalRequestEventId ==> d == e)
  {
    RunInvariant(run, i);
    assert ApprovalReservedOk(run[i], d) && ApprovalReservedOk(run[i], e);
  }

  /** The reservation of an approval always carries exactly the status of its decision. */
  lemma OutcomeAgrees(run: seq<Streams>, i: nat, d: Id)
    requires Run(run) && i < |run| && ViewAt(run[i], d).Projected? && ViewAt(run[i], d).view.kind == ApprovalKind
    ensures var w := ViewAt(run[i], d).view;
      && w.packet.Some? && w.packet.value.Exact?
      && var reserved := ProjectReservation(Read(run[i], Reservation(w.packet.value)));
      && reserved.Reserved? && reserved.view.decisionId == d && reserved.view.packet == w.packet.value
      && reserved.view.outcome == (if w.status == Pending then None else Some(w.status))
  {
    RunInvariant(run, i);
    var s := run[i];
    assert DecisionOk(s, d) && ApprovalReservedOk(s, d);
    var p := ViewAt(s, d).view.packet.value;
    assert ReservationOk(s, p.runId, p.approvalRequestEventId);
    hide Project, IndexAfter, ProjectReservation;
  }

  lemma {:induction false} AcceptanceIsRecorded(o: Opening, es: seq<Event>, n: nat)
    requires WellOpened(o) && o.kind == ApprovalKind && o.length <= n <= |es|
    requires After(o, es, n).Reached? && After(o, es, n).status == Accepted
    ensures exists k :: o.length <= k < n && es[k].payload.ApprovalAccepted? && Some(es[k].payload.packet) == o.packet
  {
    if After(o, es, n - 1).status == Accepted {
      AcceptanceIsRecorded(o, es, n - 1);
    } else {
      assert es[n - 1].payload.ApprovalAccepted?;
    }
  }

  /** Every accepted approval has made its run ready, right after the request it answers; and a run
    * is only ever made ready by an accepted approval. */
  lemma ReadyExactlyWhenAccepted(run: seq<Streams>, i: nat, d: Id)
    requires Run(run) && i < |run| && ViewAt(run[i], d).Projected? && ViewAt(run[i], d).view.kind == ApprovalKind
    requires ViewAt(run[i], d).view.status == Accepted
    ensures var w, es := ViewAt(run[i], d).view, Read(run[i], DecisionStream(d));
      w.packet.Some? && w.packet.value.Exact?
      && exists k :: 0 <= k < |es| && es[k].payload.ApprovalAccepted? && es[k].payload.packet == w.packet.value
           && ReadyFor(Read(run[i], RunStream(w.packet.value.runId)), w.packet.value, es[k])
  {
    RunInvariant(run, i);
    var es := Read(run[i], DecisionStream(d));
    assert DecisionOk(run[i], d) && AcceptanceOk(run[i], d);
    AcceptanceIsRecorded(Open(es).value, es, |es|);
  }

  lemma ReadyOnlyWhenAccepted(run: seq<Streams>, i: nat, r: Id, j: nat)
    requires Run(run) && i < |run| && j < |Read(run[i], RunStream(r))|
    requires Read(run[i], RunStream(r))[j].payload.RunReady?
    ensures var ready := Read(run[i], RunStream(r))[j];
      AcceptedAs(Read(run[i], DecisionStream(ready.payload.approvalDecisionId)), ready, r, j)
  {
    RunInvariant(run, i);
    assert ReadyOk(run[i], r);
  }

  /** Acceptance and rejection happen only while the run is at exactly the packet's version; an
    * acceptance commits in the same step the event that makes the run ready. */
  lemma DecidedAtPacketVersion(run: seq<Streams>, i: nat, d: Id)
    requires Run(run) && 0 < i < |run|
    requires ViewAt(run[i - 1], d).Projected? && ViewAt(run[i - 1], d).view.kind == ApprovalKind
    requires ViewAt(run[i - 1], d).view.status == Pending
    requires ViewAt(run[i], d).Projected? && ViewAt(run[i], d).view.status in {Accepted, Rejected}
    ensures var w := ViewAt(run[i - 1], d).view;
      && w.packet.Some? && w.packet.value.Exact?
      && var p := w.packet.value;
      && |Read(run[i - 1], RunStream(p.runId))| == p.runStreamVersion
      && (ViewAt(run[i], d).view.status == Accepted ==>
            && RunBinding(Read(run[i - 1], RunStream(p.runId))).Some?
            && |Read(run[i], RunStream(p.runId))| == p.runStreamVersion + 1
            && Read(run[i], RunStream(p.runId))[p.runStreamVersion].payload.RunReady?
            && Read(run[i], RunStream(p.runId))[p.runStreamVersion].payload.approvalDecisionId == d)
  {
    var s, s' := run[i - 1], run[i];
    var op := StepOf(run, i);
    assert DecisionOk(s, d);
    hide Run, Inv;
    DecidedByResolve(s, s', op, d);
  }

  lemma DecidedByResolve(s: Streams, s': Streams, op: Op, d: Id)
    requires ActsAtomically(s, s', op) && DecisionOk(s, d)
    requires ViewAt(s, d).Projected? && ViewAt(s, d).view.kind == ApprovalKind && ViewAt(s, d).view.status == Pending
    requires ViewAt(s', d).Projected? && ViewAt(s', d).view.status in {Accepted, Rejected}
    ensures var p := ViewAt(s, d).view.packet.value;
      && |Read(s, RunStream(p.runId))| == p.runStreamVersion
      && (ViewAt(s', d).view.status == Accepted ==>
            && RunBinding(Read(s, RunStream(p.runId))).Some?
            && |Read(s', RunStream(p.runId))| == p.runStreamVersion + 1
            && Read(s', RunStream(p.runId))[p.runStreamVersion].payload.RunReady?
            && Read(s', RunStream(p.runId))[p.runStreamVersion].payload.approvalDecisionId == d)
  {
    if op.Resolve? {
      Resolve.ResolveMoves(s, s', ViewAt(s, op.decisionId).view, op);
    }
    hide Project, IndexAfter, ProjectReservation, QuietIndex, QuietRun, WarningOk, IdentityOk;
  }
}
