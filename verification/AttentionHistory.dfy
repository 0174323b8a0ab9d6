/** What a client of the attention protocol can say about the run it took part in. */
module AttentionHistory {
  import opened EventJournal
  import opened AttentionModel
  import opened AttentionSteps
  import opened AttentionInvariant
  import opened AttentionRecord
  import opened AttentionRuns
  import opened AttentionTheorems
  import Raise = AttentionRaise
  import Resolve = AttentionResolve

  /** Step `k` takes decision `d` from pending to `resolution` by the event `terminal`. */
  ghost predicate Consumes(history: seq<Streams>, k: nat, d: Id, terminal: Payload, resolution: Status) {
    && 0 < k < |history| && resolution != Pending
    && ViewAt(history[k - 1], d).Projected? && ViewAt(history[k - 1], d).view.status == Pending
    && ViewAt(history[k], d).Projected? && ViewAt(history[k], d).view.status == resolution
    && var n := |Read(history[k - 1], DecisionStream(d))|;
    && n < |Read(history[k], DecisionStream(d))| && Read(history[k], DecisionStream(d))[n].payload == terminal
  }

  ghost predicate ConsumedSince(history: seq<Streams>, start: nat, d: Id, terminal: Payload, resolution: Status) {
    exists k :: start <= k && Consumes(history, k, d, terminal, resolution)
  }

  /** Of any number of concurrent answers, rejections, acceptances, expiries and stale marks of one
    * decision, one wins. */
  lemma OneWinner(history: seq<Streams>, j: nat, k: nat, d: Id, first: Payload, second: Payload, one: Status,
                  two: Status)
    requires Run(history) && Consumes(history, j, d, first, one) && Consumes(history, k, d, second, two)
    ensures j == k && first == second && one == two
  {
    hide Project, Run;
    if j < k {
      ConsumedIsFinal(history, j, k - 1, d);
    } else if k < j {
      ConsumedIsFinal(history, k, j - 1, d);
    }
  }

  lemma ConsumedStatus(history: seq<Streams>, start: nat, d: Id, terminal: Payload, resolution: Status, i: nat)
    requires 0 < i <= |history| && Run(history) && ConsumedSince(history[..i], start, d, terminal, resolution)
    ensures ViewAt(history[|history| - 1], d).Projected? && ViewAt(history[|history| - 1], d).view.status == resolution
    ensures ConsumedSince(history, start, d, terminal, resolution)
    ensures IsTerminal(terminal) ==> Decides(terminal, ViewAt(history[|history| - 1], d).view)
  {
    hide Project, Run, Decides;
    var k :| start <= k && Consumes(history[..i], k, d, terminal, resolution);
    assert Consumes(history, k, d, terminal, resolution);
    ConsumedIsFinal(history, k, |history| - 1, d);
    if IsTerminal(terminal) {
      DecidedAs(Read(history[|history| - 1], DecisionStream(d)), |Read(history[k - 1], DecisionStream(d))|);
    }
  }

  /** Step `k` creates decision `p`, pending. */
  ghost predicate Creates(history: seq<Streams>, k: nat, p: Packet) {
    0 < k < |history| && ViewAt(history[k - 1], p.decisionId).Absent?
    && ViewAt(history[k], p.decisionId).Projected? && ViewAt(history[k], p.decisionId).view.packet == Some(p)
    && ViewAt(history[k], p.decisionId).view.status == Pending
  }

  ghost predicate CreatedSince(history: seq<Streams>, start: nat, p: Packet) {
    exists k :: start <= k && Creates(history, k, p)
  }

  lemma NextGrows(s: Streams, s': Streams)
    requires Next(s, s')
    ensures StaleView(s, s')
  {
    hide Guard, Plan;
    var v, op :| Step(s, s', v, op);
    AppliedExtends(s, Plan(v, op));
  }

  lemma LastGrows(run: seq<Streams>, j: nat)
    requires Run(run) && 0 < j < |run|
    ensures StaleView(run[j - 1], run[j])
  {
    hide Next, StaleView;
    assert Next(run[j - 1], run[j]);
    NextGrows(run[j - 1], run[j]);
  }

  lemma {:induction false} RunGrows(run: seq<Streams>, i: nat, j: nat)
    requires Run(run) && i <= j < |run|
    ensures StaleView(run[i], run[j])
  {
    hide *;
    if i == j {
      SelfView(run[i]);
    } else {
      LastGrows(run, j);
      RunGrows(run, i, j - 1);
      StaleViewTrans(run[i], run[j - 1], run[j]);
    }
  }

  lemma SelfView(s: Streams)
    ensures StaleView(s, s)
  {
  }

  lemma CreatedStays(history: seq<Streams>, longer: seq<Streams>, start: nat, p: Packet)
    requires CreatedSince(history, start, p) && history <= longer
    ensures CreatedSince(longer, start, p)
  {
    hide Project;
    var k :| start <= k && Creates(history, k, p);
    assert longer[k] == history[k] && longer[k - 1] == history[k - 1];
    assert Creates(longer, k, p);
  }

  /** A consuming commit that is accepted really took the decision from pending to its resolution. */
  lemma StepConsumes(run: seq<Streams>, v: Streams, op: Op)
    requires Run(run) && |run| > 1 && op.Resolve? && Step(run[|run| - 2], run[|run| - 1], v, op)
    ensures Consumes(run, |run| - 1, op.decisionId, op.terminal, op.resolution)
  {
    var s, s' := run[|run| - 2], run[|run| - 1];
    RunInvariant(run, |run| - 2);
    hide Run, Inv, Step, Project, Next;
    StepActsAtomically(s, s', v, op);
    var w := ViewAt(s, op.decisionId).view;
    Resolve.ResolveMoves(s, s', w, op);
    TerminalStored(s, s', w, op);
    hide Resolve.Resolves, ViewAt;
  }

  lemma TerminalStored(s: Streams, s': Streams, w: View, op: Op)
    requires Resolve.Resolves(s, s', w, op) && w.decisionId == op.decisionId
    ensures var n := |Read(s, DecisionStream(op.decisionId))|;
      n < |Read(s', DecisionStream(op.decisionId))| && Read(s', DecisionStream(op.decisionId))[n].payload == op.terminal
  {
    hide Project;
    var n := |Read(s, DecisionStream(op.decisionId))|;
    assert Read(s', DecisionStream(op.decisionId))[n] ==
           Stamp(DecisionStream(op.decisionId), n, TerminalEvents(w, op))[0];
  }

  lemma RaiseCreates(s: Streams, s': Streams, p: Packet, ids: seq<Id>)
    requires |ids| >= 6 && Raise.Raises(s, s', p, ids)
    ensures ViewAt(s, p.decisionId).Absent?
    ensures ViewAt(s', p.decisionId).Projected? && ViewAt(s', p.decisionId).view.packet == Some(p)
            && ViewAt(s', p.decisionId).view.status == Pending
  {
    Raise.CreationProjects(p, ids);
    hide RunBinding, IndexAfter, Open, After;
  }

  lemma StepCreates(run: seq<Streams>, v: Streams, op: Op)
    requires Run(run) && |run| > 1 && (op.RaiseMaterial? || op.RaiseAdvisory?)
    requires Step(run[|run| - 2], run[|run| - 1], v, op)
    ensures Creates(run, |run| - 1, op.packet)
  {
    hide Run, Inv, Step, Raise.Raises, ViewAt;
    var s, s' := run[|run| - 2], run[|run| - 1];
    RunInvariant(run, |run| - 2);
    StepActsAtomically(s, s', v, op);
    RaiseCreates(s, s', op.packet, op.ids);
  }

  lemma StaleViewTrans(v: Streams, s: Streams, t: Streams)
    requires StaleView(v, s) && StaleView(s, t)
    ensures StaleView(v, t)
  {
    forall x ensures Read(v, x) <= Read(t, x) {
      assert Read(v, x) <= Read(s, x) <= Read(t, x);
    }
  }

  lemma NothingKnown(s: Streams)
    ensures StaleView(map[], s)
  {
  }

  lemma KnowMore(v: Streams, s: Streams, x: StreamId)
    requires StaleView(v, s)
    ensures StaleView(v[x := Read(s, x)], s)
  {
  }

  // ---------- What was there to be seen ----------

  ghost predicate Sees(history: seq<Streams>, k: nat, d: Id, w: View) {
    k < |history| && ViewAt(history[k], d) == Projected(w)
  }

  /** At some moment since `start`, or right before, this was the decision. */
  ghost predicate SeenSince(history: seq<Streams>, start: nat, d: Id, w: View) {
    exists k: nat :: start <= k + 1 && Sees(history, k, d, w)
  }

  ghost predicate Misses(history: seq<Streams>, k: nat, d: Id) {
    k < |history| && ViewAt(history[k], d).Absent?
  }

  ghost predicate AbsentSince(history: seq<Streams>, start: nat, d: Id) {
    exists k: nat :: start <= k + 1 && Misses(history, k, d)
  }

  lemma SeenNow(history: seq<Streams>, start: nat, d: Id, w: View)
    requires start <= |history| && |history| > 0 && ViewAt(history[|history| - 1], d) == Projected(w)
    ensures SeenSince(history, start, d, w)
  {
    hide Project;
    assert Sees(history, |history| - 1, d, w);
  }

  lemma AbsentNow(history: seq<Streams>, start: nat, d: Id)
    requires start <= |history| && |history| > 0 && ViewAt(history[|history| - 1], d).Absent?
    ensures AbsentSince(history, start, d)
  {
    hide Project;
    assert Misses(history, |history| - 1, d);
  }

  lemma SeenStays(history: seq<Streams>, longer: seq<Streams>, start: nat, earlier: nat, d: Id, w: View)
    requires earlier <= start && SeenSince(history, start, d, w) && history <= longer
    ensures SeenSince(longer, earlier, d, w)
  {
    hide Project;
    var k: nat :| start <= k + 1 && Sees(history, k, d, w);
    assert longer[k] == history[k] && Sees(longer, k, d, w);
  }

  lemma AbsentStays(history: seq<Streams>, longer: seq<Streams>, start: nat, earlier: nat, d: Id)
    requires earlier <= start && AbsentSince(history, start, d) && history <= longer
    ensures AbsentSince(longer, earlier, d)
  {
    hide Project;
    var k: nat :| start <= k + 1 && Misses(history, k, d);
    assert longer[k] == history[k] && Misses(longer, k, d);
  }

  // ---------- Admissions and pauses ----------

  ghost predicate Pauses(history: seq<Streams>, k: nat, runId: Id, considered: set<Id>, blocking: set<Id>) {
    && k < |history|
    && var index := IndexAfter(runId, Read(history[k], IndexStream(runId)));
    index.Some? && blocking == Blockers(index.value.pending, considered)
  }

  ghost predicate PausedSince(history: seq<Streams>, start: nat, runId: Id, considered: set<Id>, blocking: set<Id>) {
    exists k: nat :: start <= k + 1 && Pauses(history, k, runId, considered, blocking)
  }

  ghost predicate AdmitsAt(history: seq<Streams>, k: nat, runId: Id, admissionId: Id, scopeId: Id,
                           dependencies: set<Id>, revision: nat)
  {
    && 0 < k < |history| && revision == |Read(history[k - 1], IndexStream(runId))| + 1
    && revision == |Read(history[k], IndexStream(runId))|
    && var admitted := Read(history[k], IndexStream(runId))[revision - 1].payload;
    && Admits(history[k - 1], history[k], runId, admitted)
    && admitted.admissionId == admissionId && admitted.scopeId == scopeId && admitted.dependencies == dependencies
    && admitted.attentionRevision == revision - 1
  }

  ghost predicate AdmittedSince(history: seq<Streams>, start: nat, runId: Id, admissionId: Id, scopeId: Id,
                                dependencies: set<Id>, revision: nat)
  {
    exists k :: start <= k && AdmitsAt(history, k, runId, admissionId, scopeId, dependencies, revision)
  }

  datatype Admission = Admitted(revision: nat) | Paused(blocking: set<Id>)

  /** What an answer of the admission gate vouches for. */
  ghost predicate AnsweredSince(history: seq<Streams>, start: nat, runId: Id, admissionId: Id, scopeId: Id,
                                dependencies: set<Id>, answer: Admission)
  {
    match answer
    case Admitted(revision) => AdmittedSince(history, start, runId, admissionId, scopeId, dependencies, revision)
    case Paused(blocking) => blocking != {} && PausedSince(history, start, runId, {scopeId} + dependencies, blocking)
  }

  lemma AdmissionEarlier(history: seq<Streams>, start: nat, later: nat, runId: Id, admissionId: Id, scopeId: Id,
                         dependencies: set<Id>, answer: Admission)
    requires start <= later && AnsweredSince(history, later, runId, admissionId, scopeId, dependencies, answer)
    ensures AnsweredSince(history, start, runId, admissionId, scopeId, dependencies, answer)
  {
    hide Pauses, AdmitsAt;
    if answer.Paused? {
      var k: nat :| later <= k + 1 && Pauses(history, k, runId, {scopeId} + dependencies, answer.blocking);
    }
  }

  lemma StepAdmits(run: seq<Streams>, v: Streams, op: Op)
    requires Run(run) && |run| > 1 && op.Admit? && Step(run[|run| - 2], run[|run| - 1], v, op)
    ensures AdmitsAt(run, |run| - 1, op.runId, op.admissionId, op.scopeId, op.dependencies,
                     |Read(v, IndexStream(op.runId))| + 1)
  {
    hide Run, Project, IndexAfter;
    AdmitEffect(run[|run| - 2], run[|run| - 1], v, op);
  }

  // ---------- Approvals and their run ----------

  /** At state `k` the run was waiting for exactly the approval `p`. */
  ghost predicate Awaits(history: seq<Streams>, k: nat, p: Packet)
    requires p.Exact?
  {
    && k < |history|
    && var binding := RunBinding(Read(history[k], RunStream(p.runId)));
    binding.Some? && BindingMatches(p, binding.value)
  }

  ghost predicate AwaitedSince(history: seq<Streams>, start: nat, p: Packet)
    requires p.Exact?
  {
    exists k: nat :: start <= k + 1 && Awaits(history, k, p)
  }

  /** At state `k` the request `p` answers was reserved for exactly `p`. */
  ghost predicate Reserves(history: seq<Streams>, k: nat, p: Packet)
    requires p.Exact?
  {
    && k < |history|
    && var reserved := ProjectReservation(Read(history[k], Reservation(p)));
    reserved.Reserved? && reserved.view.decisionId == p.decisionId && reserved.view.packet == p
  }

  ghost predicate ReservedSince(history: seq<Streams>, start: nat, p: Packet)
    requires p.Exact?
  {
    exists k: nat :: start <= k + 1 && Reserves(history, k, p)
  }

  lemma ReservedStays(history: seq<Streams>, longer: seq<Streams>, start: nat, earlier: nat, p: Packet)
    requires p.Exact? && earlier <= start && ReservedSince(history, start, p) && history <= longer
    ensures ReservedSince(longer, earlier, p)
  {
    hide ProjectReservation;
    var k: nat :| start <= k + 1 && Reserves(history, k, p);
    assert longer[k] == history[k] && Reserves(longer, k, p);
  }

  lemma AwaitedStays(history: seq<Streams>, longer: seq<Streams>, start: nat, earlier: nat, p: Packet)
    requires p.Exact? && earlier <= start && AwaitedSince(history, start, p) && history <= longer
    ensures AwaitedSince(longer, earlier, p)
  {
    hide RunBinding;
    var k: nat :| start <= k + 1 && Awaits(history, k, p);
    assert longer[k] == history[k] && Awaits(longer, k, p);
  }

  /** Later reads of a decision differ from earlier ones in status, resolution and version only. */
  lemma SameDecision(es: seq<Event>, fs: seq<Event>)
    requires |es| > 0 && es <= fs && Project(es).Projected? && Project(fs).Projected?
    ensures var w, w' := Project(es).view, Project(fs).view;
      w' == w.(status := w'.status, resolution := w'.resolution, streamVersion := w'.streamVersion)
  {
    OpenPrefix(es, fs[|es|..]);
    assert es + fs[|es|..] == fs;
  }

  lemma AttemptRecorded(run: seq<Streams>, v: Streams, op: Op)
    requires |run| > 1 && op.RecordAttempt? && Step(run[|run| - 2], run[|run| - 1], v, op)
    ensures OnlyAttempt(run[|run| - 1], op.attempt)
  {
    hide Run;
    ExtendedStream(run[|run| - 2], Plan(v, op), 0);
  }

  /** The attempt stream of the command holds this record and nothing else. */
  predicate OnlyAttempt(s: Streams, attempt: Payload)
    requires attempt.Attempted?
  {
    var es := Read(s, AttemptStream(attempt.decisionId, attempt.commandId));
    |es| == 1 && es[0].payload == attempt
  }

  lemma CreatedEarlier(history: seq<Streams>, start: nat, later: nat, p: Packet)
    requires start <= later && CreatedSince(history, later, p)
    ensures CreatedSince(history, start, p)
  {
    var k :| later <= k && Creates(history, k, p);
  }

  lemma ConsumedEarlier(history: seq<Streams>, start: nat, later: nat, d: Id, terminal: Payload,
                        resolution: Status)
    requires start <= later && ConsumedSince(history, later, d, terminal, resolution)
    ensures ConsumedSince(history, start, d, terminal, resolution)
  {
    var k :| later <= k && Consumes(history, k, d, terminal, resolution);
  }

  lemma Grew(view: Streams, past: seq<Streams>, now: seq<Streams>)
    requires Run(now) && 0 < |past| && past <= now && StaleView(view, past[|past| - 1])
    ensures StaleView(view, now[|now| - 1])
  {
    hide Run;
    RunGrows(now, |past| - 1, |now| - 1);
    StaleViewTrans(view, past[|past| - 1], now[|now| - 1]);
  }
}
