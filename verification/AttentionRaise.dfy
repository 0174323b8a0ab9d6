/** Raising attention keeps the invariant. */
module AttentionRaise {
  import opened EventJournal
  import opened AttentionModel
  import opened AttentionSteps
  import opened AttentionInvariant

  predicate RaiseTouches(p: Packet, x: StreamId) {
    x == IdentityStream(p.attentionId) || x == DecisionStream(p.decisionId)
    || (p.Material() && x == IndexStream(p.runId))
    || (p.Exact? && x == Reservation(p))
  }

  /** What raising attention through a decision stream does to the current store, stale reads notwithstanding. */
  ghost predicate Raises(s: Streams, s': Streams, p: Packet, ids: seq<Id>)
    requires |ids| >= 6
  {
    var r, d, a := p.runId, p.decisionId, p.attentionId;
    && ValidPacket(p)
    && Read(s, IdentityStream(a)) == [] && Read(s, DecisionStream(d)) == []
    && Read(s', IdentityStream(a)) == Stamp(IdentityStream(a), 0, PacketIdentity(p, ids).events)
    && Read(s', DecisionStream(d)) == Stamp(DecisionStream(d), 0, CreationEvents(p, ids))
    && (p.Material() ==>
          && IndexAfter(r, Read(s, IndexStream(r))).Some?
          && a !in IndexAfter(r, Read(s, IndexStream(r))).value.known
          && Read(s', IndexStream(r)) ==
               Read(s, IndexStream(r)) + Stamp(IndexStream(r), |Read(s, IndexStream(r))|, [IndexRaiseEvent(p, ids)]))
    && (p.Exact? ==>
          && Read(s, Reservation(p)) == []
          && Read(s', Reservation(p)) == Stamp(Reservation(p), 0, [ReserveEvent(p, ids)])
          && RunBinding(Read(s, RunStream(r))).Some? && BindingMatches(p, RunBinding(Read(s, RunStream(r))).value))
    && (forall x :: !RaiseTouches(p, x) ==> Read(s', x) == Read(s, x))
  }

  lemma RaiseViewIsCurrent(s: Streams, v: Streams, p: Packet, ids: seq<Id>)
    requires |ids| >= 6 && StaleView(v, s) && RaiseGuard(v, p) && Accepts(s, RaiseWrites(v, p, ids)) && Contiguous(s)
    ensures Read(s, IdentityStream(p.attentionId)) == [] && Read(s, DecisionStream(p.decisionId)) == []
    ensures Read(v, IndexStream(p.runId)) == Read(s, IndexStream(p.runId))
    ensures p.Exact? ==> Read(s, Reservation(p)) == [] && Read(v, RunStream(p.runId)) == Read(s, RunStream(p.runId))
  {
    hide Project, IndexAfter;
    var ws := RaiseWrites(v, p, ids);
    Current(v, s, ws, ws[0]);
    Current(v, s, ws, ws[|ws| - 1]);
    assert ws[|ws| - 2] == Write(DecisionStream(p.decisionId), 0, CreationEvents(p, ids));
    if p.Exact? {
      var known := Read(v, RunStream(p.runId));
      assert known <= Read(s, RunStream(p.runId));
      assert known[|known| - 1] == Read(s, RunStream(p.runId))[|known| - 1];
      Current(v, s, ws, ws[1]);
      Current(v, s, ws, ws[2]);
    }
  }

  lemma RaiseNames(v: Streams, p: Packet, ids: seq<Id>, x: StreamId)
    requires |ids| >= 6 && p.Material() && Named(RaiseWrites(v, p, ids), x)
    ensures RaiseTouches(p, x) || (p.Exact? && x == RunStream(p.runId))
  {
  }

  lemma RaiseEffect(s: Streams, s': Streams, v: Streams, p: Packet, ids: seq<Id>)
    requires Step(s, s', v, RaiseMaterial(p, ids)) && Contiguous(s)
    ensures Raises(s, s', p, ids)
  {
    var ws := RaiseWrites(v, p, ids);
    CommitEffect(s, ws);
    RaiseViewIsCurrent(s, v, p, ids);
    hide Project, IndexAfter, Applied, Accepts, Stamp, RunBinding;
    var identity, decision := PacketIdentity(p, ids), Write(DecisionStream(p.decisionId), 0, CreationEvents(p, ids));
    assert identity in ws && decision in ws && ws[|ws| - 1] in ws;
    assert Read(s', identity.stream) == Stamp(identity.stream, 0, identity.events);
    assert Read(s', decision.stream) == Stamp(decision.stream, 0, decision.events);
    if p.Exact? {
      var reserve, run := Write(Reservation(p), 0, [ReserveEvent(p, ids)]),
          Write(RunStream(p.runId), p.runStreamVersion, []);
      assert reserve in ws && run in ws;
      assert Read(s', reserve.stream) == Stamp(reserve.stream, 0, reserve.events);
      assert Read(s', run.stream) == Read(s, run.stream);
    }
    hide RaiseWrites, Read;
    forall x | !RaiseTouches(p, x) ensures Read(s', x) == Read(s, x) {
      if Named(ws, x) {
        RaiseNames(v, p, ids, x);
      }
    }
  }

  lemma CreationProjects(p: Packet, ids: seq<Id>)
    requires |ids| >= 6 && ValidPacket(p)
    ensures var es := Stamp(DecisionStream(p.decisionId), 0, CreationEvents(p, ids));
      Project(es) == Projected(View(p.Kind(), p.decisionId, p.attentionId, p.runId, Pending, |es|, p.expiry,
        p.affectedScopes, p.dependentScopes, p.Material(), Some(p), NoResolution))
  {
    var es := Stamp(DecisionStream(p.decisionId), 0, CreationEvents(p, ids));
    assert Open(es) == Some(Opening(p.Kind(), Some(p), Raised(p), |es|));
  }

  lemma RaiseKeepsDecision(s: Streams, s': Streams, p: Packet, ids: seq<Id>, d: Id)
    requires |ids| >= 6 && Raises(s, s', p, ids) && DecisionOk(s, d)
    ensures DecisionOk(s', d)
  {
    CreationProjects(p, ids);
    hide Project, IndexAfter, RunBinding;
  }

  lemma RaiseKeepsApproval(s: Streams, s': Streams, p: Packet, ids: seq<Id>, d: Id)
    requires |ids| >= 6 && Raises(s, s', p, ids) && DecisionOk(s, d) && ApprovalReservedOk(s, d)
    ensures ApprovalReservedOk(s', d)
  {
    CreationProjects(p, ids);
    hide Project, IndexAfter, RunBinding;
  }

  lemma RaiseKeepsAcceptance(s: Streams, s': Streams, p: Packet, ids: seq<Id>, d: Id)
    requires |ids| >= 6 && Raises(s, s', p, ids) && AcceptanceOk(s, d)
    ensures AcceptanceOk(s', d)
  {
    hide Project, IndexAfter, RunBinding;
  }

  lemma RaiseKeepsIdentity(s: Streams, s': Streams, p: Packet, ids: seq<Id>, a: Id)
    requires |ids| >= 6 && Raises(s, s', p, ids) && WarningOk(s, a) && IdentityOk(s, a)
    ensures WarningOk(s', a) && IdentityOk(s', a)
  {
    CreationProjects(p, ids);
    hide Project, IndexAfter, RunBinding;
  }

  lemma RaiseKeepsReservation(s: Streams, s': Streams, p: Packet, ids: seq<Id>, r: Id, q: Id)
    requires |ids| >= 6 && Raises(s, s', p, ids) && ReservationOk(s, r, q)
    ensures ReservationOk(s', r, q)
  {
    CreationProjects(p, ids);
    hide Project, IndexAfter, RunBinding;
  }

  lemma RaiseKeepsReady(s: Streams, s': Streams, p: Packet, ids: seq<Id>, r: Id)
    requires |ids| >= 6 && Raises(s, s', p, ids) && ReadyOk(s, r)
    ensures ReadyOk(s', r)
  {
    hide Project, IndexAfter, RunBinding;
  }

  /** Raising opens its own attention in its own run, and changes no other. */
  ghost predicate Opens(s: Streams, s': Streams, p: Packet, r: Id, a: Id) {
    && (OpenMaterial(s', r, a) <==> OpenMaterial(s, r, a) || (p.Material() && a == p.attentionId && r == p.runId))
    && (OpenMaterial(s, r, a) ==> a != p.attentionId && Owner(s, a).Some? && Owner(s', a) == Owner(s, a)
                                  && ViewAt(s', Owner(s, a).value) == ViewAt(s, Owner(s, a).value))
    && (ReservedIn(s, r, a) ==> ReservedIn(s', r, a))
  }

  lemma RaiseOpens(s: Streams, s': Streams, p: Packet, ids: seq<Id>, r: Id, a: Id)
    requires |ids| >= 6 && Raises(s, s', p, ids) && IdentityOk(s, a)
    ensures Opens(s, s', p, r, a)
  {
    CreationProjects(p, ids);
    hide Project, IndexAfter, RunBinding;
  }

  lemma RaiseOwns(s: Streams, s': Streams, p: Packet, ids: seq<Id>)
    requires |ids| >= 6 && Raises(s, s', p, ids)
    ensures ReservedIn(s', p.runId, p.attentionId) && Owner(s', p.attentionId) == Some(p.decisionId)
    ensures ViewAt(s', p.decisionId).Projected?
    ensures ItemOf(ViewAt(s', p.decisionId).view) ==
            Item(p.attentionId, p.decisionId, p.affectedScopes, p.dependentScopes)
  {
    CreationProjects(p, ids);
    hide Project, IndexAfter, RunBinding;
  }

  lemma IndexAfterRaise(es: seq<Event>, p: Packet, ids: seq<Id>)
    requires |ids| >= 6 && IndexAfter(p.runId, es).Some? && p.attentionId !in IndexAfter(p.runId, es).value.known
    ensures var before := IndexAfter(p.runId, es).value;
      IndexAfter(p.runId, es + Stamp(IndexStream(p.runId), |es|, [IndexRaiseEvent(p, ids)])) == Some(before.(
        known := before.known + {p.attentionId},
        pending := before.pending[p.attentionId := Item(p.attentionId, p.decisionId, p.affectedScopes,
                                                        p.dependentScopes)]))
  {
    hide IndexAfter;
    var added := Stamp(IndexStream(p.runId), |es|, [IndexRaiseEvent(p, ids)]);
    assert added == [added[0]];
    IndexSnoc(p.runId, es, added[0]);
  }

  lemma RaiseKeepsIndex(s: Streams, s': Streams, p: Packet, ids: seq<Id>, r: Id)
    requires |ids| >= 6 && Raises(s, s', p, ids) && IndexOk(s, r)
    requires forall a :: Opens(s, s', p, r, a)
    ensures IndexOk(s', r)
  {
    RaiseOwns(s, s', p, ids);
    if p.Material() {
      IndexAfterRaise(Read(s, IndexStream(p.runId)), p, ids);
    }
    hide Project, IndexAfter, RunBinding, Owner, IdentityTaken, ReservedIn, ViewAt, Stamp;
    var before, index := IndexAfter(r, Read(s, IndexStream(r))), IndexAfter(r, Read(s', IndexStream(r)));
    assert index.Some?;
    forall a ensures a in index.value.known ==> ReservedIn(s', r, a)
      ensures a in index.value.pending <==> OpenMaterial(s', r, a) {
      assert Opens(s, s', p, r, a);
    }
    forall a | a in index.value.pending
      ensures index.value.pending[a] == ItemOf(ViewAt(s', Owner(s', a).value).view) {
      assert Opens(s, s', p, r, a);
    }
  }

  lemma AdvisoryEffect(s: Streams, s': Streams, v: Streams, p: Packet, ids: seq<Id>)
    requires Step(s, s', v, RaiseAdvisory(p, ids))
    ensures Raises(s, s', p, ids)
  {
    var ws := Plan(v, RaiseAdvisory(p, ids));
    CommitEffect(s, ws);
    hide Project, IndexAfter, Applied, Stamp, RunBinding;
    assert ws[0] in ws && ws[1] in ws;
    Current(v, s, ws, ws[0]);
    assert Read(s', ws[0].stream) == Stamp(ws[0].stream, 0, ws[0].events);
    assert Read(s', ws[1].stream) == Stamp(ws[1].stream, 0, ws[1].events);
  }

  lemma RaisePreserves(s: Streams, s': Streams, p: Packet, ids: seq<Id>)
    requires |ids| >= 6 && Raises(s, s', p, ids) && Inv(s) && Contiguous(s')
    ensures Inv(s')
  {
    hide Raises, DecisionOk, WarningOk, IdentityOk, IndexOk, ReservationOk, ApprovalReservedOk, AcceptanceOk, ReadyOk;
    forall d ensures DecisionOk(s', d) && ApprovalReservedOk(s', d) && AcceptanceOk(s', d) {
      RaiseKeepsDecision(s, s', p, ids, d);
      RaiseKeepsApproval(s, s', p, ids, d);
      RaiseKeepsAcceptance(s, s', p, ids, d);
    }
    forall a ensures WarningOk(s', a) && IdentityOk(s', a) { RaiseKeepsIdentity(s, s', p, ids, a); }
    forall r, q ensures ReservationOk(s', r, q) { RaiseKeepsReservation(s, s', p, ids, r, q); }
    forall r ensures IndexOk(s', r) && ReadyOk(s', r) {
      forall a ensures Opens(s, s', p, r, a) { RaiseOpens(s, s', p, ids, r, a); }
      RaiseKeepsIndex(s, s', p, ids, r);
      RaiseKeepsReady(s, s', p, ids, r);
    }
  }
}
