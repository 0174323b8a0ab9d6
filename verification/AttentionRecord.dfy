/** What the events of a decision say by themselves, and that the replay reports exactly that. */
module AttentionRecord {
  import opened EventJournal
  import opened AttentionModel
  import opened AttentionSteps
  import opened AttentionInvariant

  // ---------- The record, event by event ----------

  function OpeningLength(kind: Kind): nat {
    match kind
    case QuestionKind => 3
    case ApprovalKind => 2
    case AdvisoryKind => 1
  }

  predicate OpensQuestion(es: seq<Event>, w: View)
    requires |es| >= 3
  {
    && w.packet.Some? && w.packet.value.Question?
    && var p := w.packet.value;
    && es[0].payload == QuestionnaireProposed(p)
    && es[1].payload == DecisionRequested(p.decisionId, p.runId, p.commandId)
    && es[2].payload == AttentionRaised(p.attentionId, p.decisionId, p.runId, Questionnaire, p.material,
                                        p.affectedScopes, p.dependentScopes, p.evidence, p.commandId)
    && p.options != [] && (forall i, j :: 0 <= i < j < |p.options| ==> p.options[i] != p.options[j])
    && (p.recommendation.Some? ==> p.recommendation.value in p.options)
    && w.decisionId == p.decisionId && w.attentionId == p.attentionId && w.runId == p.runId && w.expiry == p.expiry
    && w.affectedScopes == p.affectedScopes && w.dependentScopes == p.dependentScopes && w.material == p.material
  }

  predicate OpensApproval(es: seq<Event>, w: View)
    requires |es| >= 2
  {
    && w.packet.Some? && w.packet.value.Exact?
    && var p := w.packet.value;
    && es[0].payload == ApprovalRequested(p)
    && es[1].payload == AttentionRaised(p.attentionId, p.decisionId, p.runId, Approval, true, p.affectedScopes,
                                        p.dependentScopes, p.evidence, p.commandId)
    && p.expiry.At? && p.runStreamVersion > 0
    && w.decisionId == p.decisionId && w.attentionId == p.attentionId && w.runId == p.runId && w.expiry == p.expiry
    && w.affectedScopes == p.affectedScopes && w.dependentScopes == p.dependentScopes && w.material
  }

  predicate OpensWarning(es: seq<Event>, w: View)
    requires |es| >= 1
  {
    && es[0].payload.AttentionRaised? && es[0].payload.source == AgentTrail && !es[0].payload.material
    && var raised := es[0].payload;
    && w.packet == None && w.expiry == WaitForever && !w.material
    && w.decisionId == raised.decisionId && w.attentionId == raised.attentionId && w.runId == raised.runId
    && w.affectedScopes == raised.affectedScopes && w.dependentScopes == raised.dependentScopes
  }

  /** This event decides the decision, in this way. */
  predicate Decides(e: Payload, w: View) {
    match e
    case DecisionAccepted(d, r, optionId, actor, _, evidence) =>
      && w.kind == QuestionKind && d == w.decisionId && r == w.runId
      && w.packet.Some? && w.packet.value.Question? && optionId in w.packet.value.options
      && w.status == Accepted && w.resolution == Answered(optionId, actor, evidence)
    case ApprovalAccepted(d, r, plan, envelope, request, packet, actor, _, evidence) =>
      && w.kind == ApprovalKind && d == w.decisionId && r == w.runId
      && packet.Exact? && w.packet == Some(packet) && plan == packet.planDigest && envelope == packet.envelopeDigest
      && request == packet.approvalRequestEventId
      && w.status == Accepted && w.resolution == Approved(plan, envelope, actor, evidence)
    case DecisionRejected(d, r, reason, actor, _, evidence) =>
      && w.kind == QuestionKind && d == w.decisionId && r == w.runId
      && w.status == Rejected && w.resolution == Refused(reason, actor, evidence)
    case ApprovalRejected(d, r, reason, actor, _, evidence) =>
      && w.kind == ApprovalKind && d == w.decisionId && r == w.runId
      && w.status == Rejected && w.resolution == Refused(reason, actor, evidence)
    case DecisionExpired(d, r, _, _) =>
      && w.kind == QuestionKind && d == w.decisionId && r == w.runId
      && w.status == Expired && w.resolution == NoResolution
    case ApprovalExpired(d, r, _, _) =>
      && w.kind == ApprovalKind && d == w.decisionId && r == w.runId
      && w.status == Expired && w.resolution == NoResolution
    case ApprovalStale(d, r, _, _, _, _) =>
      && w.kind == ApprovalKind && d == w.decisionId && r == w.runId
      && w.status == Stale && w.resolution == NoResolution
    case _ => false
  }

  /** This event closes the attention of the decision with its outcome. */
  predicate Closes(e: Payload, w: View) {
    && e.AttentionResolved? && e.attentionId == w.attentionId && e.decisionId == w.decisionId && e.runId == w.runId
    && e.resolution == w.status
  }

  /** Open, or decided once and then closed; a warning is only ever closed. */
  predicate Concludes(tail: seq<Event>, w: View) {
    if tail == [] then w.status == Pending && w.resolution == NoResolution
    else if w.kind == AdvisoryKind then
      w.status == Resolved && w.resolution == NoResolution && forall i :: 0 <= i < |tail| ==> Closes(tail[i].payload, w)
    else
      Decides(tail[0].payload, w) && forall i :: 1 <= i < |tail| ==> Closes(tail[i].payload, w)
  }

  predicate OpensAs(es: seq<Event>, w: View)
    requires |es| >= OpeningLength(w.kind)
  {
    match w.kind
    case QuestionKind => OpensQuestion(es, w)
    case ApprovalKind => OpensApproval(es, w)
    case AdvisoryKind => OpensWarning(es, w)
  }

  /** The event stands at its place in the stream of the decision, or of the warning, and of its run. */
  predicate InPlace(es: seq<Event>, i: nat, w: View)
    requires i < |es|
  {
    && es[i].streamId == (if w.kind == AdvisoryKind then AdvisoryStream(w.attentionId)
                          else DecisionStream(w.decisionId))
    && es[i].streamVersion == i + 1 && es[i].correlationId == w.runId
  }

  /** The events say exactly this of the decision. */
  predicate Tells(es: seq<Event>, w: View) {
    && |es| >= OpeningLength(w.kind) && w.streamVersion == |es|
    && (forall i :: 0 <= i < |es| ==> InPlace(es, i, w))
    && OpensAs(es, w) && Concludes(es[OpeningLength(w.kind)..], w)
  }

  // ---------- The replay reports it ----------

  /** The view of an opening, wherever its events have got to. */
  predicate Views(o: Opening, w: View) {
    WellOpened(o) && w == ViewOf(o, w.status, w.resolution, w.streamVersion) && o.length == OpeningLength(w.kind)
  }

  lemma OpeningTells(es: seq<Event>, o: Opening, w: View)
    requires es != [] && Open(es) == Some(o) && w == ViewOf(o, w.status, w.resolution, w.streamVersion)
    ensures Views(o, w) && |es| >= OpeningLength(w.kind) && OpensAs(es, w)
  {
  }

  lemma ToldOpening(es: seq<Event>, w: View) returns (o: Opening)
    requires |es| >= OpeningLength(w.kind) && OpensAs(es, w)
    ensures Open(es) == Some(o) && Views(o, w)
  {
    o := Opening(w.kind, w.packet, es[OpeningLength(w.kind) - 1].payload, OpeningLength(w.kind));
  }

  lemma ConcludesSnoc(tail: seq<Event>, e: Event, w: View)
    ensures Concludes(tail + [e], w) <==>
              if tail == [] then (if w.kind == AdvisoryKind then w.status == Resolved && w.resolution == NoResolution
                                                                 && Closes(e.payload, w)
                                  else Decides(e.payload, w))
              else Concludes(tail, w) && Closes(e.payload, w)
  {
    var longer := tail + [e];
    assert longer[|tail|] == e && forall i :: 0 <= i < |tail| ==> longer[i] == tail[i];
    hide Decides, Closes;
  }

  /** One more event: the automaton takes it in exactly the way the record does. */
  lemma AdvanceTells(o: Opening, before: Progress, e: Event, first: bool, w: View)
    requires Views(o, w) && (first ==> before == Reached(Pending, NoResolution))
    requires !first && before.Reached? ==> before.status != Pending
    requires !first && before.Reached? && w.kind == AdvisoryKind ==> before == Reached(Resolved, NoResolution)
    ensures Advance(o, before, e) == Reached(w.status, w.resolution) <==>
              if !first then before == Reached(w.status, w.resolution) && Closes(e.payload, w)
              else if w.kind == AdvisoryKind then
                w.status == Resolved && w.resolution == NoResolution && Closes(e.payload, w)
              else Decides(e.payload, w)
  {
  }

  lemma SamePlace(o: Opening, es: seq<Event>, i: nat, w: View)
    requires Views(o, w) && i < |es|
    ensures Bound(es[i], StreamOf(o), i + 1, o.raised.runId) <==> InPlace(es, i, w)
  {
  }

  lemma {:induction false} AfterTells(o: Opening, es: seq<Event>, n: nat, w: View)
    requires Views(o, w) && o.length <= n <= |es|
    ensures After(o, es, n) == Reached(w.status, w.resolution) <==>
              (forall i :: o.length <= i < n ==> InPlace(es, i, w)) && Concludes(es[o.length..n], w)
    ensures After(o, es, n).Reached? && n > o.length ==> After(o, es, n).status != Pending
    ensures After(o, es, n).Reached? && n > o.length && w.kind == AdvisoryKind ==>
              After(o, es, n) == Reached(Resolved, NoResolution)
  {
    if n > o.length {
      AfterTells(o, es, n - 1, w);
      var e := es[n - 1];
      assert es[o.length..n] == es[o.length..n - 1] + [e];
      ConcludesSnoc(es[o.length..n - 1], e, w);
      SamePlace(o, es, n - 1, w);
      AdvanceTells(o, After(o, es, n - 1), e, n - 1 == o.length, w);
      hide Decides, Closes, Concludes;
    }
  }

  /** The replay yields a view exactly when the events tell it. */
  lemma ProjectionTells(es: seq<Event>, w: View)
    ensures Project(es) == Projected(w) <==> Tells(es, w)
  {
    hide Open, OpensAs, After, Concludes;
    if Project(es) == Projected(w) {
      var o := Open(es).value;
      OpeningTells(es, o, w);
      ProjectedParts(es, o, w);
    }
    if Tells(es, w) {
      var o := ToldOpening(es, w);
      ProjectedParts(es, o, w);
    }
  }

  lemma ProjectedParts(es: seq<Event>, o: Opening, w: View)
    requires es != [] && Open(es) == Some(o) && Views(o, w) && |es| >= o.length
    ensures Project(es) == Projected(w) <==>
              && w.streamVersion == |es| && (forall i :: 0 <= i < |es| ==> InPlace(es, i, w))
              && Concludes(es[o.length..], w)
  {
    AfterTells(o, es, |es|, w);
    assert es[o.length..|es|] == es[o.length..];
    hide Open, After, Concludes;
    forall i | 0 <= i < o.length ensures Bound(es[i], StreamOf(o), i + 1, o.raised.runId) <==> InPlace(es, i, w) {
      SamePlace(o, es, i, w);
    }
  }

  /** The deciding event of a decision, wherever it stands, is the one its view reports. */
  lemma DecidedAs(es: seq<Event>, k: nat)
    requires Project(es).Projected? && k < |es| && IsTerminal(es[k].payload)
    ensures Decides(es[k].payload, Project(es).view) && k == OpeningLength(Project(es).view.kind)
  {
    hide Project, Decides;
    var w := Project(es).view;
    ProjectionTells(es, w);
    var n := OpeningLength(w.kind);
    if k >= n {
      assert es[n..][k - n] == es[k];
    }
  }

  /** Without a deciding event nothing is decided, and nothing resolved. */
  lemma Undecided(es: seq<Event>)
    requires Project(es).Projected? && forall k :: 0 <= k < |es| ==> !IsTerminal(es[k].payload)
    ensures Project(es).view.resolution == NoResolution && Project(es).view.status in {Pending, Resolved}
  {
    hide Project;
    var w := Project(es).view;
    ProjectionTells(es, w);
    var n := OpeningLength(w.kind);
    if |es| > n {
      assert es[n..][0] == es[n];
    }
  }

  // ---------- The run index, event by event ----------

  predicate RaisesIt(e: Payload, a: Id) {
    e.IndexRaised? && e.attentionId == a
  }

  predicate ResolvesIt(e: Payload, a: Id) {
    e.IndexResolved? && e.attentionId == a
  }

  predicate AdmitsIt(e: Payload, admissionId: Id) {
    e.ScopeAdmitted? && e.admissionId == admissionId
  }

  /** The `k`-th event fits what precedes it: attention is raised once and resolved once, after it was raised for the
    * same decision; an admission happens once and knows its place. */
  predicate FitsIndex(r: Id, es: seq<Event>, k: nat)
    requires k < |es|
  {
    && es[k].streamId == IndexStream(r) && es[k].streamVersion == k + 1 && es[k].correlationId == r
    && match es[k].payload
       case IndexRaised(run, a, _, _, _, _) => run == r && forall j :: 0 <= j < k ==> !RaisesIt(es[j].payload, a)
       case IndexResolved(run, a, d, _, _) =>
         && run == r && (forall j :: 0 <= j < k ==> !ResolvesIt(es[j].payload, a))
         && exists j :: 0 <= j < k && RaisesIt(es[j].payload, a) && es[j].payload.decisionId == d
       case ScopeAdmitted(run, admission, _, _, revision, _, _) =>
         run == r && revision == k && forall j :: 0 <= j < k ==> !AdmitsIt(es[j].payload, admission)
       case _ => false
  }

  predicate EverRaised(es: seq<Event>, a: Id) {
    exists j :: 0 <= j < |es| && RaisesIt(es[j].payload, a)
  }

  predicate EverResolved(es: seq<Event>, a: Id) {
    exists j :: 0 <= j < |es| && ResolvesIt(es[j].payload, a)
  }

  predicate EverAdmitted(es: seq<Event>, admissionId: Id) {
    exists j :: 0 <= j < |es| && AdmitsIt(es[j].payload, admissionId)
  }

  /** Known is what was raised, admitted what was admitted, pending what was raised and not resolved, as raised. */
  ghost predicate IndexSays(es: seq<Event>, index: IndexView) {
    && (forall a :: a in index.known <==> EverRaised(es, a))
    && (forall m :: m in index.admissions <==> EverAdmitted(es, m))
    && (forall a :: a in index.pending <==> EverRaised(es, a) && !EverResolved(es, a))
    && (forall a, j :: a in index.pending && 0 <= j < |es| && RaisesIt(es[j].payload, a) ==>
          var e := es[j].payload;
          index.pending[a] == Item(a, e.decisionId, e.affectedScopes, e.dependentScopes))
  }

  lemma SaidOnce(es: seq<Event>, one: IndexView, other: IndexView)
    requires IndexSays(es, one) && IndexSays(es, other)
    ensures one == other
  {
    assert one.known == other.known && one.admissions == other.admissions;
    assert one.pending.Keys == other.pending.Keys;
    forall a | a in one.pending ensures one.pending[a] == other.pending[a] {
      var j :| 0 <= j < |es| && RaisesIt(es[j].payload, a);
    }
    assert one.pending == other.pending;
  }

  lemma FitsPrefix(r: Id, es: seq<Event>, e: Event, k: nat)
    requires k < |es|
    ensures FitsIndex(r, es + [e], k) == FitsIndex(r, es, k)
  {
    hide RaisesIt, ResolvesIt, AdmitsIt;
    assert forall j :: 0 <= j < |es| ==> (es + [e])[j] == es[j];
  }

  lemma OneMore(es: seq<Event>, e: Event, x: Id)
    ensures EverRaised(es + [e], x) <==> EverRaised(es, x) || RaisesIt(e.payload, x)
    ensures EverResolved(es + [e], x) <==> EverResolved(es, x) || ResolvesIt(e.payload, x)
    ensures EverAdmitted(es + [e], x) <==> EverAdmitted(es, x) || AdmitsIt(e.payload, x)
  {
    hide RaisesIt, ResolvesIt, AdmitsIt;
    var longer := es + [e];
    assert longer[|es|] == e && forall j :: 0 <= j < |es| ==> longer[j] == es[j];
    if j :| 0 <= j < |es| && RaisesIt(es[j].payload, x) { assert RaisesIt(longer[j].payload, x); }
    if j :| 0 <= j < |es| && ResolvesIt(es[j].payload, x) { assert ResolvesIt(longer[j].payload, x); }
    if j :| 0 <= j < |es| && AdmitsIt(es[j].payload, x) { assert AdmitsIt(longer[j].payload, x); }
  }

  lemma {:induction false} ResolvedWasRaised(r: Id, es: seq<Event>, a: Id)
    requires (forall k :: 0 <= k < |es| ==> FitsIndex(r, es, k)) && EverResolved(es, a)
    ensures EverRaised(es, a)
  {
    var k :| 0 <= k < |es| && ResolvesIt(es[k].payload, a);
    assert FitsIndex(r, es, k);
  }

  lemma RaisedOnce(r: Id, es: seq<Event>, a: Id, i: nat, j: nat)
    requires forall k :: 0 <= k < |es| ==> FitsIndex(r, es, k)
    requires i < |es| && j < |es| && RaisesIt(es[i].payload, a) && RaisesIt(es[j].payload, a)
    ensures i == j
  {
    assert FitsIndex(r, es, i) && FitsIndex(r, es, j);
  }

  lemma AdvanceFits(r: Id, es: seq<Event>, e: Event, index: IndexView)
    requires IndexSays(es, index) && forall k :: 0 <= k < |es| ==> FitsIndex(r, es, k)
    ensures AdvanceIndex(r, index, e, |es|).Some? <==> FitsIndex(r, es + [e], |es|)
  {
    var longer := es + [e];
    assert longer[|es|] == e && forall j :: 0 <= j < |es| ==> longer[j] == es[j];
    if e.payload.IndexResolved? {
      var a, d := e.payload.attentionId, e.payload.decisionId;
      assert EverResolved(es, a) <==> !forall j :: 0 <= j < |es| ==> !ResolvesIt(longer[j].payload, a);
      if EverRaised(es, a) {
        var i :| 0 <= i < |es| && RaisesIt(es[i].payload, a);
        forall j | 0 <= j < |es| && RaisesIt(longer[j].payload, a) ensures i == j { RaisedOnce(r, es, a, i, j); }
        assert (exists j :: 0 <= j < |es| && RaisesIt(longer[j].payload, a) && longer[j].payload.decisionId == d) <==>
               es[i].payload.decisionId == d;
      }
    }
  }

  lemma AdvanceSays(r: Id, es: seq<Event>, e: Event, index: IndexView)
    requires IndexSays(es, index) && forall k :: 0 <= k < |es| ==> FitsIndex(r, es, k)
    requires AdvanceIndex(r, index, e, |es|).Some?
    ensures IndexSays(es + [e], AdvanceIndex(r, index, e, |es|).value)
  {
    var longer, index' := es + [e], AdvanceIndex(r, index, e, |es|).value;
    forall a, j | a in index'.pending && 0 <= j < |longer| && RaisesIt(longer[j].payload, a)
      ensures var raise := longer[j].payload;
        index'.pending[a] == Item(a, raise.decisionId, raise.affectedScopes, raise.dependentScopes)
    {
      if j < |es| {
        assert longer[j] == es[j];
        assert EverRaised(es, a);
      }
    }
    hide FitsIndex, EverRaised, EverResolved, EverAdmitted;
    forall x ensures EverRaised(longer, x) <==> EverRaised(es, x) || RaisesIt(e.payload, x)
      ensures EverResolved(longer, x) <==> EverResolved(es, x) || ResolvesIt(e.payload, x)
      ensures EverAdmitted(longer, x) <==> EverAdmitted(es, x) || AdmitsIt(e.payload, x)
      ensures EverResolved(es, x) ==> EverRaised(es, x)
    {
      OneMore(es, e, x);
      if EverResolved(es, x) {
        ResolvedWasRaised(r, es, x);
      }
    }
  }

  lemma {:induction false} IndexReplay(r: Id, es: seq<Event>)
    ensures IndexAfter(r, es).Some? <==> forall k :: 0 <= k < |es| ==> FitsIndex(r, es, k)
    ensures IndexAfter(r, es).Some? ==> IndexSays(es, IndexAfter(r, es).value)
  {
    if es != [] {
      var front, e := es[..|es| - 1], es[|es| - 1];
      assert es == front + [e];
      IndexReplay(r, front);
      forall k | 0 <= k < |front| ensures FitsIndex(r, es, k) == FitsIndex(r, front, k) {
        FitsPrefix(r, front, e, k);
      }
      if IndexAfter(r, front).Some? {
        var index := IndexAfter(r, front).value;
        assert forall j :: 0 <= j < |front| ==> FitsIndex(r, front, j);
        AdvanceFits(r, front, e, index);
        if AdvanceIndex(r, index, e, |front|).Some? {
          AdvanceSays(r, front, e, index);
        }
      }
    }
  }

  /** The index replays to a view exactly when every event fits and the events say what the view says. */
  lemma IndexTells(r: Id, es: seq<Event>, index: IndexView)
    ensures IndexAfter(r, es) == Some(index) <==>
              (forall k :: 0 <= k < |es| ==> FitsIndex(r, es, k)) && IndexSays(es, index)
  {
    hide IndexAfter, FitsIndex, IndexSays;
    IndexReplay(r, es);
    if IndexAfter(r, es).Some? && IndexSays(es, index) {
      SaidOnce(es, index, IndexAfter(r, es).value);
    }
  }

  // ---------- Reservations ----------

  /** One event reserves the request for the packet, at most one more tells how its decision ended. */
  predicate ReservationSays(es: seq<Event>, w: ReservationView) {
    && |es| == w.streamVersion == (if w.outcome.None? then 1 else 2)
    && (forall i :: 0 <= i < |es| ==>
          es[i].streamId == ReservationStream(w.runId, w.approvalRequestEventId) && es[i].streamVersion == i + 1
          && es[i].correlationId == w.runId)
    && es[0].payload.ApprovalReserved?
    && es[0].payload ==
         ApprovalReserved(w.runId, w.approvalRequestEventId, w.decisionId, w.packet, es[0].payload.commandId)
    && (w.outcome.Some? ==>
          && es[1].payload.ReservationConsumed?
          && es[1].payload == ReservationConsumed(w.runId, w.approvalRequestEventId, w.decisionId, w.outcome.value,
                                                  es[1].payload.commandId))
  }

  lemma ReservationTells(es: seq<Event>, w: ReservationView)
    ensures ProjectReservation(es) == Reserved(w) <==> ReservationSays(es, w)
    ensures ProjectReservation(es) == Unreserved <==> es == []
  {
  }
}
