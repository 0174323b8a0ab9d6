/** What an accepted artifact stream guarantees about its artifacts and its protocol. */
module ArtifactTheorems {
  import opened EventJournal
  import opened Artifacts

  // ---------- Removing a replaced receipt ----------

  predicate DistinctKinds(artifacts: seq<Artifact>) {
    forall i, j :: 0 <= i < j < |artifacts| ==> artifacts[i].kind != artifacts[j].kind
  }

  predicate DistinctIds(artifacts: seq<Artifact>) {
    forall i, j :: 0 <= i < j < |artifacts| ==> artifacts[i].artifactId != artifacts[j].artifactId
  }

  lemma {:induction false} WithoutMembers(artifacts: seq<Artifact>, id: Id, a: Artifact)
    requires DistinctIds(artifacts)
    ensures a in Without(artifacts, id) <==> a in artifacts && a.artifactId != id
  {
    if artifacts != [] {
      if artifacts[0].artifactId != id {
        WithoutMembers(artifacts[1..], id, a);
      } else {
        assert forall i :: 0 < i < |artifacts| ==> artifacts[i].artifactId != id;
      }
      assert artifacts == [artifacts[0]] + artifacts[1..];
    }
  }

  lemma {:induction false} WithoutDistinct(artifacts: seq<Artifact>, id: Id)
    requires DistinctKinds(artifacts) && DistinctIds(artifacts)
    ensures DistinctKinds(Without(artifacts, id)) && DistinctIds(Without(artifacts, id))
  {
    if artifacts != [] && artifacts[0].artifactId != id {
      WithoutDistinct(artifacts[1..], id);
      var rest := Without(artifacts[1..], id);
      forall i | 0 <= i < |rest| ensures rest[i].kind != artifacts[0].kind
             && rest[i].artifactId != artifacts[0].artifactId {
        WithoutMembers(artifacts[1..], id, rest[i]);
        var k :| 0 <= k < |artifacts[1..]| && artifacts[1..][k] == rest[i];
        assert artifacts[k + 1] == rest[i];
      }
    }
  }

  // ---------- The invariant of the fold ----------

  function IdsOf(artifacts: seq<Artifact>): set<Id> {
    set a | a in artifacts :: a.artifactId
  }

  /** The list of artifacts and the index by kind hold the same artifacts, one of a kind. */
  ghost predicate Indexed(artifacts: seq<Artifact>, byKind: map<Kind, Entry>, ids: set<Id>) {
    && DistinctKinds(artifacts) && DistinctIds(artifacts)
    && (forall a :: a in artifacts <==> a.kind in byKind && byKind[a.kind].artifact == a)
    && (forall k :: k in byKind ==> byKind[k].artifact.kind == k && byKind[k].artifact.artifactId in ids)
  }

  /** The two maps of the view are keyed by exactly the retained identities. */
  predicate Mapped(artifacts: seq<Artifact>, byKind: map<Kind, Entry>, evidence: map<Id, Evidence>,
                   phases: map<Id, Phase>)
  {
    && evidence.Keys == IdsOf(artifacts) && phases.Keys == IdsOf(artifacts)
    && (forall k :: k in byKind ==>
          byKind[k].artifact.artifactId in evidence && evidence[byKind[k].artifact.artifactId] == byKind[k].evidence)
  }

  ghost predicate Consistent(st: State) {
    Indexed(st.artifacts, st.byKind, st.ids) && Mapped(st.artifacts, st.byKind, st.evidence, st.phases)
  }

  /** Each retained digest is the digest of its evidence, and each artifact names those it builds on. */
  predicate Linked(byKind: map<Kind, Entry>) {
    && (forall k :: k in byKind ==>
          WellTyped(k, byKind[k].evidence) && EvidenceDigest(k, byKind[k].evidence) == Some(byKind[k].artifact.digest))
    && (ReviewReport in byKind ==>
          && Patch in byKind && ValidationReport in byKind
          && byKind[ReviewReport].evidence.diffDigest == byKind[Patch].artifact.digest
          && byKind[ReviewReport].evidence.validationDigest == byKind[ValidationReport].artifact.digest)
    && (IntegrationReceipt in byKind ==>
          ReviewReport in byKind && byKind[IntegrationReceipt].evidence.review == byKind[ReviewReport].evidence)
  }

  lemma RecordLinks(events: seq<Event>, st: State, event: Event)
    requires event.payload.Recorded? && RecordAccepted(events, st, event) && Linked(st.byKind)
    ensures Linked(Record(events, st, event).byKind)
  {
    hide HasPrior, HasMatchingLaterPreparation, EvidenceDigest, SuccessfulPrepared, PriorEvent, AtVersion;
  }

  lemma AppendIndexed(artifacts: seq<Artifact>, byKind: map<Kind, Entry>, ids: set<Id>, entry: Entry)
    requires Indexed(artifacts, byKind, ids) && entry.artifact.artifactId !in ids && entry.artifact.kind !in byKind
    ensures Indexed(artifacts + [entry.artifact], byKind[entry.artifact.kind := entry],
                    ids + {entry.artifact.artifactId})
    ensures entry.artifact.artifactId !in IdsOf(artifacts)
  {
    forall i | 0 <= i < |artifacts|
      ensures artifacts[i].kind != entry.artifact.kind && artifacts[i].artifactId != entry.artifact.artifactId
    {
      assert artifacts[i] in artifacts;
    }
  }

  lemma AppendMapped(artifacts: seq<Artifact>, byKind: map<Kind, Entry>, ids: set<Id>, evidence: map<Id, Evidence>,
                     phases: map<Id, Phase>, entry: Entry)
    requires Indexed(artifacts, byKind, ids) && Mapped(artifacts, byKind, evidence, phases)
    requires entry.artifact.artifactId !in ids
    ensures Mapped(artifacts + [entry.artifact], byKind[entry.artifact.kind := entry],
                   evidence[entry.artifact.artifactId := entry.evidence],
                     phases[entry.artifact.artifactId := entry.phase])
  {
    IdsSnoc(artifacts, entry.artifact);
    KnownIds(artifacts, byKind, ids);
    hide Indexed, IdsOf;
    var id := entry.artifact.artifactId;
    assert evidence[id := entry.evidence].Keys == evidence.Keys + {id};
    assert phases[id := entry.phase].Keys == phases.Keys + {id};
  }

  lemma KnownIds(artifacts: seq<Artifact>, byKind: map<Kind, Entry>, ids: set<Id>)
    requires Indexed(artifacts, byKind, ids)
    ensures forall k :: k in byKind ==> byKind[k].artifact.artifactId in ids
  {
  }

  lemma IdsSnoc(artifacts: seq<Artifact>, a: Artifact)
    ensures IdsOf(artifacts + [a]) == IdsOf(artifacts) + {a.artifactId}
  {
  }

  function Appended(st: State, entry: Entry): State {
    st.(artifacts := st.artifacts + [entry.artifact],
        evidence := st.evidence[entry.artifact.artifactId := entry.evidence],
        phases := st.phases[entry.artifact.artifactId := entry.phase],
        byKind := st.byKind[entry.artifact.kind := entry],
        ids := st.ids + {entry.artifact.artifactId})
  }

  lemma AppendConsistent(st: State, entry: Entry)
    requires Consistent(st) && entry.artifact.artifactId !in st.ids && entry.artifact.kind !in st.byKind
    ensures Consistent(Appended(st, entry))
  {
    AppendIndexed(st.artifacts, st.byKind, st.ids, entry);
    AppendMapped(st.artifacts, st.byKind, st.ids, st.evidence, st.phases, entry);
    hide Indexed, Mapped;
  }

  /** The state without the prepared receipt that a final one replaces. */
  function Dropped(st: State): State
    requires IntegrationReceipt in st.byKind
  {
    var earlier := st.byKind[IntegrationReceipt].artifact.artifactId;
    st.(artifacts := Without(st.artifacts, earlier), evidence := st.evidence - {earlier},
        phases := st.phases - {earlier}, byKind := st.byKind - {IntegrationReceipt})
  }

  lemma DropMembers(st: State)
    requires Indexed(st.artifacts, st.byKind, st.ids) && IntegrationReceipt in st.byKind
    ensures var receipt := st.byKind[IntegrationReceipt].artifact;
      && receipt in st.artifacts
      && (forall a :: a in Dropped(st).artifacts <==> a in st.artifacts && a != receipt)
      && (forall a :: a in st.artifacts && a != receipt ==>
            a.artifactId != receipt.artifactId && a.kind != IntegrationReceipt)
  {
    var receipt := st.byKind[IntegrationReceipt].artifact;
    assert receipt in st.artifacts;
    forall a | a in st.artifacts && a != receipt ensures a.artifactId != receipt.artifactId
           && a.kind != IntegrationReceipt {
      SameIdSame(st.artifacts, a, receipt);
    }
    forall a ensures a in Dropped(st).artifacts <==> a in st.artifacts && a != receipt {
      WithoutMembers(st.artifacts, receipt.artifactId, a);
    }
  }

  lemma DropConsistent(st: State)
    requires Consistent(st) && IntegrationReceipt in st.byKind
    ensures Consistent(Dropped(st))
  {
    DropIndexed(st);
    DropIds(st);
    hide Indexed, IdsOf, Without;
  }

  lemma DropIndexed(st: State)
    requires Indexed(st.artifacts, st.byKind, st.ids) && IntegrationReceipt in st.byKind
    ensures Indexed(Dropped(st).artifacts, Dropped(st).byKind, Dropped(st).ids)
  {
    WithoutDistinct(st.artifacts, st.byKind[IntegrationReceipt].artifact.artifactId);
    DropMembers(st);
    hide DistinctKinds, DistinctIds, Without;
  }

  lemma DropIds(st: State)
    requires Indexed(st.artifacts, st.byKind, st.ids) && IntegrationReceipt in st.byKind
    ensures var id := st.byKind[IntegrationReceipt].artifact.artifactId;
      && IdsOf(Dropped(st).artifacts) == IdsOf(st.artifacts) - {id}
      && forall k :: k in Dropped(st).byKind ==> st.byKind[k].artifact.artifactId != id
  {
    DropMembers(st);
    hide DistinctKinds, DistinctIds, Without;
    forall k | k in Dropped(st).byKind
      ensures st.byKind[k].artifact.artifactId != st.byKind[IntegrationReceipt].artifact.artifactId
    {
      assert st.byKind[k].artifact in st.artifacts;
    }
  }

  lemma SameIdSame(artifacts: seq<Artifact>, a: Artifact, b: Artifact)
    requires DistinctIds(artifacts) && DistinctKinds(artifacts) && a in artifacts && b in artifacts && a != b
    ensures a.artifactId != b.artifactId && a.kind != b.kind
  {
    var i :| 0 <= i < |artifacts| && artifacts[i] == a;
    var j :| 0 <= j < |artifacts| && artifacts[j] == b;
  }

  lemma RecordIsAppend(events: seq<Event>, st: State, event: Event)
    requires event.payload.Recorded? && RecordAccepted(events, st, event)
    ensures var artifact, phase := event.payload.artifact, PhaseOf(events, event);
      var entry, st' := Entry(artifact, event.payload.evidence, phase), Record(events, st, event);
      var base := if Replaces(st, artifact, phase) then Dropped(st) else st;
      && artifact.artifactId !in base.ids && artifact.kind !in base.byKind
      && st'.artifacts == Appended(base, entry).artifacts && st'.evidence == Appended(base, entry).evidence
      && st'.phases == Appended(base, entry).phases && st'.ids == Appended(base, entry).ids
      && st'.byKind == Appended(base, entry).byKind
  {
    hide InOrder, Chained, EvidenceDigest, PhaseOf, WellTyped, RequiredConsumer, Without;
  }

  lemma RecordConsistent(events: seq<Event>, st: State, event: Event)
    requires event.payload.Recorded? && RecordAccepted(events, st, event) && Consistent(st)
    ensures Consistent(Record(events, st, event))
  {
    RecordIsAppend(events, st, event);
    hide RecordAccepted, PhaseOf, Consistent, Record, Dropped, Appended;
    var artifact, phase := event.payload.artifact, PhaseOf(events, event);
    var entry := Entry(artifact, event.payload.evidence, phase);
    if Replaces(st, artifact, phase) {
      DropConsistent(st);
      AppendConsistent(Dropped(st), entry);
      Sideways(Appended(Dropped(st), entry), Record(events, st, event));
    } else {
      AppendConsistent(st, entry);
      Sideways(Appended(st, entry), Record(events, st, event));
    }
  }

  /** Consistency is about artifacts, maps, kinds and identities only. */
  lemma Sideways(st: State, st': State)
    requires Consistent(st) && st'.artifacts == st.artifacts && st'.evidence == st.evidence && st'.phases == st.phases
    requires st'.byKind == st.byKind && st'.ids == st.ids
    ensures Consistent(st')
  {
  }

  lemma ObservedConsistent(st: State)
    requires Consistent(st) && IntegrationReceipt in st.byKind
    ensures Consistent(st.(phases := st.phases[st.byKind[IntegrationReceipt].artifact.artifactId := Final]))
  {
    assert st.byKind[IntegrationReceipt].artifact in st.artifacts;
  }

  lemma StepConsistent(events: seq<Event>, st: State, event: Event)
    requires Step(events, st, event).Some? && Consistent(st) && Linked(st.byKind)
    ensures Consistent(Step(events, st, event).value) && Linked(Step(events, st, event).value.byKind)
  {
    var p := event.payload;
    var open := st.(consumer := None, terminal := st.terminal || (p.Task? && IsTerminal(p.task)));
    Sideways(st, open);
    hide RecordAccepted, Record, LifecycleReference, Consumes, Linked;
    if p.Recorded? {
      RecordConsistent(events, open, event);
      RecordLinks(events, open, event);
    } else if p.Task? && open.mode && p.task == IntegrationObserved && p.fields.verified {
      ObservedConsistent(open);
    } else {
      Sideways(open, Step(events, st, event).value);
    }
  }

  lemma {:induction false} AlwaysConsistent(events: seq<Event>, n: nat)
    requires n <= |events| && After(events, n).Some?
    ensures Consistent(After(events, n).value) && Linked(After(events, n).value.byKind)
  {
    if n > 0 {
      AlwaysConsistent(events, n - 1);
      StepConsistent(events, After(events, n - 1).value, events[n - 1]);
    }
  }

  /** A review names the digests of the retained patch and validation report. */
  predicate ReviewNames(view: View, review: Artifact, patch: Artifact, validation: Artifact)
    requires review.artifactId in view.evidence && view.evidence[review.artifactId].Decision?
  {
    && patch in view.artifacts && validation in view.artifacts && patch.kind == Patch
    && validation.kind == ValidationReport
    && view.evidence[review.artifactId].diffDigest == patch.digest
    && view.evidence[review.artifactId].validationDigest == validation.digest
  }

  predicate ReceiptEmbeds(view: View, receipt: Artifact, review: Artifact)
    requires receipt.artifactId in view.evidence && view.evidence[receipt.artifactId].Receipt?
  {
    && review in view.artifacts && review.kind == ReviewReport && review.artifactId in view.evidence
    && view.evidence[receipt.artifactId].review == view.evidence[review.artifactId]
  }

  /** One artifact of the view, its evidence and the artifacts it builds on. */
  ghost predicate ChainedIn(view: View, a: Artifact) {
    && a.artifactId in view.evidence && a.artifactId in view.phases
    && var e := view.evidence[a.artifactId];
    && WellTyped(a.kind, e) && EvidenceDigest(a.kind, e) == Some(a.digest)
    && (a.kind == ReviewReport ==> exists patch, validation :: ReviewNames(view, a, patch, validation))
    && (a.kind == IntegrationReceipt ==> exists review :: ReceiptEmbeds(view, a, review))
  }

  lemma ChainedHere(st: State, a: Artifact)
    requires Consistent(st) && Linked(st.byKind) && a in st.artifacts
    ensures ChainedIn(Retained(st), a)
  {
    hide EvidenceDigest, DistinctKinds, DistinctIds;
    var view := Retained(st);
    if a.kind == ReviewReport {
      var patch, validation := st.byKind[Patch].artifact, st.byKind[ValidationReport].artifact;
      assert ReviewNames(view, a, patch, validation);
    }
    if a.kind == IntegrationReceipt {
      assert ReceiptEmbeds(view, a, st.byKind[ReviewReport].artifact);
    }
  }

  /** The artifact chain of every accepted stream: one artifact of a kind, both maps keyed by exactly the
    * retained identities, every digest that of its evidence, and every artifact built on retained ones. */
  lemma ArtifactChain(events: seq<Event>)
    requires Accepted(events)
    ensures var view := Retained(After(events, |events|).value);
      && DistinctKinds(view.artifacts)
      && view.evidence.Keys == view.phases.Keys == IdsOf(view.artifacts)
      && (forall a :: a in view.artifacts ==> ChainedIn(view, a))
  {
    AlwaysConsistent(events, |events|);
    hide After, ChainedIn, Linked;
    var st := After(events, |events|).value;
    forall a | a in st.artifacts ensures ChainedIn(Retained(st), a) {
      ChainedHere(st, a);
    }
  }

  // ---------- Receipts after a preparation ----------

  /** A receipt recorded after `integration_prepared` is the prepared one, except possibly in its outcome;
    * a completed one is exactly it. */
  lemma ReceiptKeepsPreparation(events: seq<Event>, j: nat, prepared: Evidence)
    requires Accepted(events) && j < |events| && events[j].payload.Recorded?
    requires events[j].payload.artifact.kind == IntegrationReceipt
    requires PreparedReceipt(events, events[j].streamVersion) == Some(prepared)
    ensures var receipt := events[j].payload.evidence;
      && receipt.Receipt? && prepared.Receipt?
      && receipt == prepared.(outcome := receipt.outcome)
      && (receipt.outcome == Completed ==>
            receipt == prepared && events[j].payload.artifact.digest == ReceiptDigest(prepared))
  {
    AcceptedPrefix(events, j + 1, |events|);
    AcceptedPrefix(events, j, |events|);
    assert After(events, j + 1) == Step(events, After(events, j).value, events[j]);
    hide After, Step;
    StepKeepsPreparation(events, After(events, j).value, events[j], prepared);
  }

  lemma StepKeepsPreparation(events: seq<Event>, st: State, event: Event, prepared: Evidence)
    requires Step(events, st, event).Some? && event.payload.Recorded?
    requires event.payload.artifact.kind == IntegrationReceipt
    requires PreparedReceipt(events, event.streamVersion) == Some(prepared)
    ensures var receipt := event.payload.evidence;
      && receipt.Receipt? && prepared.Receipt?
      && receipt == prepared.(outcome := receipt.outcome)
      && (receipt.outcome == Completed ==>
            receipt == prepared && event.payload.artifact.digest == ReceiptDigest(prepared))
  {
    hide HasMatchingLaterPreparation, PriorEvent, InOrder, HasPrior, AtVersion, RequiredConsumer, Consumes;
  }

  // ---------- The marker protocol ----------

  lemma StepMarker(events: seq<Event>, st: State, event: Event)
    requires Step(events, st, event).Some?
    ensures var st' := Step(events, st, event).value;
      && (event.payload.Marker? <==> st'.marker.Some?)
      && (event.payload.Marker? ==> st'.marker == Some(event.payload) && st'.consumer.None?)
      && (st.marker.Some? ==>
            && event.payload.Recorded?
            && st.marker.value ==
                 Marker(event.payload.artifact.artifactId, event.payload.artifact.kind, event.payload.artifact.digest)
            && WellTyped(event.payload.artifact.kind, event.payload.evidence)
            && st'.consumer == Some(RequiredConsumer(event.payload.artifact.kind, event.payload.evidence,
                 PhaseOf(events, event),
                 if Patch in st'.byKind then Some(st'.byKind[Patch].artifact.digest) else None)))
      && (st.consumer.Some? ==> Consumes(event.payload, st.consumer.value))
  {
    hide InOrder, Chained, LifecycleReference, EvidenceDigest, PhaseOf, RequiredConsumer, WellTyped;
  }

  /** The patch retained when the event at `i` has been replayed. */
  function PatchDigestAt(events: seq<Event>, i: nat): Option<Digest>
    requires i < |events| && After(events, i + 1).Some?
  {
    var byKind := After(events, i + 1).value.byKind;
    if Patch in byKind then Some(byKind[Patch].artifact.digest) else None
  }

  /** Every marker is followed by exactly the artifact it announces and then by the lifecycle event that
    * its evidence demands. */
  lemma MarkerProtocol(events: seq<Event>, i: nat)
    requires Accepted(events) && i < |events| && events[i].payload.Marker?
    ensures i + 2 < |events| && events[i + 1].payload.Recorded? && After(events, i + 2).Some?
    ensures var recorded := events[i + 1].payload;
      && events[i].payload == Marker(recorded.artifact.artifactId, recorded.artifact.kind, recorded.artifact.digest)
      && WellTyped(recorded.artifact.kind, recorded.evidence)
      && Consumes(events[i + 2].payload, RequiredConsumer(recorded.artifact.kind, recorded.evidence,
           PhaseOf(events, events[i + 1]), PatchDigestAt(events, i + 1)))
  {
    AcceptedPrefix(events, i + 1, |events|);
    AcceptedPrefix(events, i, |events|);
    StepMarker(events, After(events, i).value, events[i]);
    hide Step, Consumes, RequiredConsumer, PhaseOf, WellTyped;
    assert i + 1 < |events|;
    AcceptedPrefix(events, i + 2, |events|);
    StepMarker(events, After(events, i + 1).value, events[i + 1]);
    assert i + 2 < |events|;
    AcceptedPrefix(events, i + 3, |events|);
    StepMarker(events, After(events, i + 2).value, events[i + 2]);
  }

  /** Artifact mode: the stream has a gap, or an artifact or marker event came before. */
  predicate InMode(events: seq<Event>, n: nat)
    requires n <= |events|
  {
    HasGap(events) || exists k :: 0 <= k < n && !events[k].payload.Task?
  }

  predicate TerminalAt(events: seq<Event>, k: nat)
    requires k < |events|
  {
    events[k].payload.Task? && IsTerminal(events[k].payload.task)
  }

  lemma StepModes(events: seq<Event>, st: State, event: Event)
    requires Step(events, st, event).Some?
    ensures var st' := Step(events, st, event).value;
      && (st'.mode <==> st.mode || !event.payload.Task?)
      && (st'.terminal <==> st.terminal || (event.payload.Task? && IsTerminal(event.payload.task)))
      && (st.terminal ==> !st.mode && event.payload.Task?)
  {
    hide RecordAccepted, LifecycleReference, Consumes;
  }

  ghost predicate TerminalBefore(events: seq<Event>, n: nat)
    requires n <= |events|
  {
    exists k :: 0 <= k < n && TerminalAt(events, k)
  }

  lemma ModesGrow(events: seq<Event>, n: nat)
    requires 0 < n <= |events|
    ensures InMode(events, n) <==> InMode(events, n - 1) || !events[n - 1].payload.Task?
    ensures TerminalBefore(events, n) <==> TerminalBefore(events, n - 1) || TerminalAt(events, n - 1)
  {
    hide HasGap;
  }

  lemma {:induction false} ModesAreWhatTheySay(events: seq<Event>, n: nat)
    requires n <= |events| && After(events, n).Some?
    ensures After(events, n).value.mode <==> InMode(events, n)
    ensures After(events, n).value.terminal <==> TerminalBefore(events, n)
  {
    if n > 0 {
      hide Step, InMode, TerminalBefore;
      ModesAreWhatTheySay(events, n - 1);
      StepModes(events, After(events, n - 1).value, events[n - 1]);
      ModesGrow(events, n);
    }
  }

  /** In artifact mode nothing follows a terminal event, and no artifact or marker ever does. */
  lemma NothingAfterTerminal(events: seq<Event>, i: nat, j: nat)
    requires Accepted(events) && i < j < |events| && TerminalAt(events, i)
    ensures events[j].payload.Task? && !InMode(events, j)
  {
    AcceptedPrefix(events, j, |events|);
    AcceptedPrefix(events, j + 1, |events|);
    ModesAreWhatTheySay(events, j);
    StepModes(events, After(events, j).value, events[j]);
    hide Step, HasGap;
  }
}
