/** The supervised AgentTrail process: its lifecycle automaton and the sink that records its evidence. */
module AgentTrailEvents {
  import opened EventJournal

  datatype Evidence =
    | Starting(executable: Id, manifest: Id, incarnation: Id)
    | Ready(executable: Id, manifest: Id, incarnation: Id, pid: Option<nat>)
    | Failed(executable: Id, manifest: Id, incarnation: Id, pid: Option<nat>, startup: bool)
    | Restarted(executable: Id, manifest: Id, incarnation: Id, pid: Option<nat>, previousIncarnation: Id)

  datatype Phase = NotStarted | StartingInitial | StartingRestart | RestartedPhase | ReadyPhase | FailedPhase

  datatype State = State(phase: Phase, incarnation: Option<Id>, previousFailed: Option<Id>, pid: Option<nat>,
                         package: Option<(Id, Id)>)

  const Idle := State(NotStarted, None, None, None, None)

  /** The schema: a ready process has an identity. */
  predicate WellTyped(e: Evidence) {
    e.Ready? ==> e.pid.Some?
  }

  predicate ConsistentPid(known: Option<nat>, candidate: Option<nat>) {
    candidate.None? || known.None? || candidate == known
  }

  function AssignedPid(known: Option<nat>, candidate: Option<nat>): Option<nat> {
    if candidate.None? then known else candidate
  }

  /** One event of the automaton. */
  function Next(s: State, e: Evidence): Option<State> {
    if s.package.Some? && s.package != Some((e.executable, e.manifest)) then None else
    var package := Some((e.executable, e.manifest));
    match e
    case Starting(_, _, incarnation) =>
      if s.phase == NotStarted then Some(State(StartingInitial, Some(incarnation), s.previousFailed, None, package))
      else if s.phase != FailedPhase || s.incarnation == Some(incarnation) then None
      else Some(State(StartingRestart, Some(incarnation), s.incarnation, None, package))
    case Restarted(_, _, incarnation, pid, previous) =>
      if s.incarnation != Some(incarnation) || s.phase != StartingRestart || s.previousFailed != Some(previous)
         || !ConsistentPid(s.pid, pid) then None
      else Some(s.(phase := RestartedPhase, pid := AssignedPid(s.pid, pid), package := package))
    case Ready(_, _, incarnation, pid) =>
      if s.incarnation != Some(incarnation) || s.phase !in {StartingInitial, RestartedPhase}
          || !ConsistentPid(s.pid, pid)
      then None
      else Some(s.(phase := ReadyPhase, pid := AssignedPid(s.pid, pid), package := package))
    case Failed(_, _, incarnation, pid, startup) =>
      if s.incarnation != Some(incarnation) || !ConsistentPid(s.pid, pid) then None
      else if startup && s.phase !in {StartingInitial, RestartedPhase} then None
      else if !startup && (s.phase != ReadyPhase || pid.None?) then None
      else Some(s.(phase := FailedPhase, pid := AssignedPid(s.pid, pid), package := package))
  }

  function After(events: seq<Evidence>): Option<State> {
    if events == [] then Some(Idle) else
    var before := After(events[..|events| - 1]);
    if before.None? then None else Next(before.value, events[|events| - 1])
  }

  predicate Valid(events: seq<Evidence>) {
    After(events).Some?
  }

  /** The validator as it runs: one pass, its state in local variables. */
  method ValidateLifecycle(events: seq<Evidence>) returns (valid: bool)
    ensures valid <==> Valid(events)
  {
    var phase, incarnation, previousFailed := NotStarted, None, None;
    var known: Option<nat> := None;
    for n := 0 to |events|
      invariant After(events[..n]) == Some(State(phase, incarnation, previousFailed, known,
        if n == 0 then None else Some((events[0].executable, events[0].manifest))))
      invariant n > 0 <==> phase != NotStarted
      invariant n > 0 ==> incarnation.Some?
    {
      var e := events[n];
      assert events[..n + 1][..n] == events[..n];
      assert After(events[..n + 1]) == Next(After(events[..n]).value, e);
      InvalidStays(events, n + 1);
      if e.executable != events[0].executable || e.manifest != events[0].manifest {
        return false;
      }
      if e.Starting? {
        if n == 0 {
          phase := StartingInitial;
        } else {
          if phase != FailedPhase || incarnation == Some(e.incarnation) {
            return false;
          }
          previousFailed := incarnation;
          phase := StartingRestart;
        }
        incarnation := Some(e.incarnation);
        known := None;
        continue;
      }
      if incarnation != Some(e.incarnation) {
        return false;
      }
      if e.Restarted? {
        if phase != StartingRestart || Some(e.previousIncarnation) != previousFailed || !ConsistentPid(known, e.pid) {
          return false;
        }
        known := AssignedPid(known, e.pid);
        phase := RestartedPhase;
        continue;
      }
      if e.Ready? {
        if (phase != StartingInitial && phase != RestartedPhase) || !ConsistentPid(known, e.pid) {
          return false;
        }
        known := AssignedPid(known, e.pid);
        phase := ReadyPhase;
        continue;
      }
      if e.startup {
        if phase != StartingInitial && phase != RestartedPhase {
          return false;
        }
      } else if phase != ReadyPhase || e.pid.None? {
        return false;
      }
      if !ConsistentPid(known, e.pid) {
        return false;
      }
      known := AssignedPid(known, e.pid);
      phase := FailedPhase;
    }
    assert events[..|events|] == events;
    valid := true;
  }

  lemma {:induction false} InvalidStays(events: seq<Evidence>, n: nat)
    requires n <= |events|
    ensures !Valid(events[..n]) ==> !Valid(events)
  {
    if n == |events| {
      assert events[..n] == events;
    } else {
      var front := events[..|events| - 1];
      assert front[..n] == events[..n];
      InvalidStays(front, n);
    }
  }

  /** Validity is prefix-closed, and grows one event at a time. */
  lemma PrefixClosed(events: seq<Evidence>, n: nat)
    requires Valid(events) && n <= |events|
    ensures Valid(events[..n])
    ensures n < |events| ==> Next(After(events[..n]).value, events[n]).Some?
  {
    InvalidStays(events, n);
    if n < |events| {
      InvalidStays(events, n + 1);
      assert events[..n + 1][..n] == events[..n];
    }
  }

  // ---------- What a valid history says ----------

  /** The phase is the kind of the last event. */
  lemma LastEvent(events: seq<Evidence>)
    requires Valid(events)
    ensures var s := After(events).value;
      && (events == [] <==> s.phase == NotStarted)
      && (events != [] ==>
            var last := events[|events| - 1];
            && s.incarnation == Some(last.incarnation)
            && (s.phase in {StartingInitial, StartingRestart} <==> last.Starting?)
            && (s.phase == RestartedPhase <==> last.Restarted?)
            && (s.phase == ReadyPhase <==> last.Ready?)
            && (s.phase == FailedPhase <==> last.Failed?))
  {
    if events != [] {
      LastEvent(events[..|events| - 1]);
    }
  }

  lemma FirstStartsOnce(events: seq<Evidence>)
    requires Valid(events) && After(events).value.phase == StartingInitial
    ensures |events| == 1
  {
    if |events| > 1 {
      LastEvent(events[..|events| - 1]);
    }
  }

  lemma FirstIsStarting(events: seq<Evidence>)
    requires Valid(events) && events != []
    ensures events[0].Starting?
  {
    PrefixClosed(events, 0);
  }

  /** What comes before the event at `n`. */
  lemma StateBefore(events: seq<Evidence>, n: nat)
    requires Valid(events) && n < |events|
    ensures Valid(events[..n]) && Next(After(events[..n]).value, events[n]).Some?
    ensures Valid(events[..n + 1]) && After(events[..n + 1]) == Next(After(events[..n]).value, events[n])
  {
    PrefixClosed(events, n);
    PrefixClosed(events, n + 1);
    assert events[..n + 1][..n] == events[..n];
  }

  /** Between two ready events lie a failure, the start of another incarnation and a restart that names the
    * failed one; the later ready event belongs to that other incarnation. */
  lemma ReadyIsSeparated(events: seq<Evidence>, i: nat, j: nat)
    requires Valid(events) && i < j < |events| && events[i].Ready? && events[j].Ready?
    ensures i < j - 3
    ensures events[j - 3].Failed? && events[j - 2].Starting? && events[j - 1].Restarted?
    ensures events[j - 2].incarnation != events[j - 3].incarnation
    ensures events[j - 1].previousIncarnation == events[j - 3].incarnation
    ensures events[j - 2].incarnation == events[j - 1].incarnation == events[j].incarnation
  {
    FirstIsStarting(events);
    ReadyFollows(events, j);
    RestartFollows(events, j - 1);
  }

  lemma ReadyFollows(events: seq<Evidence>, n: nat)
    requires Valid(events) && 1 < n < |events| && events[n].Ready?
    ensures events[n - 1].Restarted? && events[n - 1].incarnation == events[n].incarnation
  {
    StateBefore(events, n);
    LastEvent(events[..n]);
    if After(events[..n]).value.phase == StartingInitial {
      FirstStartsOnce(events[..n]);
    }
  }

  lemma RestartFollows(events: seq<Evidence>, n: nat)
    requires Valid(events) && n < |events| && events[n].Restarted?
    ensures n > 1 && events[n - 1].Starting? && events[n - 1].incarnation == events[n].incarnation
    ensures events[n - 2].Failed? && events[n - 2].incarnation == events[n].previousIncarnation != events[n].incarnation
  {
    StateBefore(events, n);
    LastEvent(events[..n]);
    StateBefore(events, n - 1);
    LastEvent(events[..n - 1]);
  }

  predicate NoStartBetween(events: seq<Evidence>, i: nat, j: nat)
    requires i <= j < |events|
  {
    forall k :: i < k <= j ==> !events[k].Starting?
  }

  function PidOf(e: Evidence): Option<nat> {
    if e.Starting? then None else e.pid
  }

  lemma {:induction false} PidIsKept(events: seq<Evidence>, i: nat, j: nat)
    requires Valid(events) && i <= j < |events| && PidOf(events[i]).Some? && NoStartBetween(events, i, j)
    ensures Valid(events[..j + 1]) && After(events[..j + 1]).value.pid == PidOf(events[i])
  {
    StateBefore(events, j);
    if i < j {
      PidIsKept(events, i, j - 1);
    }
  }

  /** The process identity is constant as long as no new incarnation starts. */
  lemma PidIsConstant(events: seq<Evidence>, i: nat, j: nat)
    requires Valid(events) && i <= j < |events| && NoStartBetween(events, i, j)
    requires PidOf(events[i]).Some? && PidOf(events[j]).Some?
    ensures PidOf(events[i]) == PidOf(events[j])
    ensures events[i].incarnation == events[j].incarnation
  {
    PidIsKept(events, i, j);
    PidIsKept(events, j, j);
    SameIncarnation(events, i, j);
  }

  lemma {:induction false} SameIncarnation(events: seq<Evidence>, i: nat, j: nat)
    requires Valid(events) && i <= j < |events| && NoStartBetween(events, i, j)
    ensures events[i].incarnation == events[j].incarnation
  {
    if i < j {
      SameIncarnation(events, i, j - 1);
      StateBefore(events, j);
      LastEvent(events[..j]);
    }
  }

  /** Only the directly preceding incarnation is compared, so an older identity may come back with another
    * process: the process identity is not a function of the incarnation. */
  lemma IncarnationMayReturn() returns (events: seq<Evidence>)
    ensures Valid(events) && |events| == 9
    ensures events[1].incarnation == events[8].incarnation && PidOf(events[1]) == Some(1) && PidOf(events[8]) == Some(2)
  {
    events := [];
    var s := Idle;
    assert After([]) == Some(Idle);
    hide After;
    events, s := Grown(events, s, Starting(0, 0, 10));
    events, s := Grown(events, s, Ready(0, 0, 10, Some(1)));
    events, s := Grown(events, s, Failed(0, 0, 10, Some(1), false));
    events, s := Grown(events, s, Starting(0, 0, 11));
    events, s := Grown(events, s, Restarted(0, 0, 11, None, 10));
    events, s := Grown(events, s, Failed(0, 0, 11, None, true));
    events, s := Grown(events, s, Starting(0, 0, 10));
    events, s := Grown(events, s, Restarted(0, 0, 10, None, 11));
    events, s := Grown(events, s, Ready(0, 0, 10, Some(2)));
  }

  lemma Grown(events: seq<Evidence>, s: State, e: Evidence) returns (grown: seq<Evidence>, t: State)
    requires After(events) == Some(s) && Next(s, e).Some?
    ensures grown == events + [e] && t == Next(s, e).value && After(grown) == Some(t)
  {
    grown, t := events + [e], Next(s, e).value;
    assert grown[..|events|] == events;
  }

  /** An incarnation stands for one process. */
  predicate OneProcess(events: seq<Evidence>) {
    forall i, j :: 0 <= i < |events| && 0 <= j < |events| ==> SameProcess(events[i], events[j])
  }

  predicate SameProcess(a: Evidence, b: Evidence) {
    a.incarnation == b.incarnation && PidOf(a).Some? && PidOf(b).Some? ==> PidOf(a) == PidOf(b)
  }

  /** No process of the incarnation is on record: what a caller may check before it records a start. */
  predicate Unused(events: seq<Evidence>, incarnation: Id) {
    forall e :: e in events && e.incarnation == incarnation ==> PidOf(e).None?
  }

  /** Every start names an incarnation that had no process before. */
  predicate FreshStarts(events: seq<Evidence>) {
    forall k :: 0 <= k < |events| && events[k].Starting? ==> Unused(events[..k], events[k].incarnation)
  }

  predicate Quiet(events: seq<Evidence>) {
    forall i :: 0 <= i < |events| ==> !events[i].Starting?
  }

  lemma {:induction false} LastStart(events: seq<Evidence>, j: nat) returns (k: nat)
    requires Valid(events) && j < |events|
    ensures k <= j && events[k].Starting? && NoStartBetween(events, k, j)
  {
    if events[j].Starting? {
      k := j;
    } else {
      FirstIsStarting(events);
      k := LastStart(events, j - 1);
    }
  }

  lemma UnusedBefore(events: seq<Evidence>, i: nat, k: nat)
    requires i < k < |events| && Unused(events[..k], events[k].incarnation)
    ensures events[i].incarnation == events[k].incarnation ==> PidOf(events[i]).None?
  {
    assert events[..k][i] == events[i];
  }

  /** As long as starts are fresh, the process identity is a function of the incarnation. */
  lemma FreshStartsKeepProcess(events: seq<Evidence>, i: nat, j: nat)
    requires Valid(events) && FreshStarts(events) && i <= j < |events|
    requires events[i].incarnation == events[j].incarnation && PidOf(events[i]).Some? && PidOf(events[j]).Some?
    ensures PidOf(events[i]) == PidOf(events[j])
  {
    var k := LastStart(events, j);
    SameIncarnation(events, k, j);
    if i < k {
      UnusedBefore(events, i, k);
    }
    PidIsConstant(events, i, j);
  }

  /** After a failure any other incarnation may start and come up as any process. */
  lemma RestartedAsAny(events: seq<Evidence>, start: Evidence, q: nat) returns (up: Evidence)
    requires Valid(events) && events != [] && start.Starting? && Valid(events + [start])
    ensures up == Restarted(start.executable, start.manifest, start.incarnation, Some(q),
                            events[|events| - 1].incarnation)
    ensures Valid(events + [start] + [up])
  {
    var started := events + [start];
    assert started[..|events|] == events;
    var before := After(events).value;
    LastEvent(events);
    up := Restarted(start.executable, start.manifest, start.incarnation, Some(q), events[|events| - 1].incarnation);
    assert After(started) == Next(before, start);
    assert After(started).value.phase == StartingRestart;
    var _, _ := Grown(started, After(started).value, up);
  }

  lemma QuietKeepsFresh(events: seq<Evidence>, n: nat, tail: seq<Evidence>)
    requires FreshStarts(events) && n <= |events| && Quiet(tail)
    ensures FreshStarts(events[..n] + tail)
  {
    var all := events[..n] + tail;
    forall k | n <= k < |all| ensures !all[k].Starting? {
      assert all[k] == tail[k - n];
    }
    forall k | 0 <= k < n && all[k].Starting? ensures Unused(all[..k], all[k].incarnation) {
      assert all[..k] == events[..k] && all[k] == events[k];
    }
  }

  /** The continuations before the next start. */
  ghost predicate AlwaysOneProcess(events: seq<Evidence>) {
    forall n, tail :: 0 <= n <= |events| && Quiet(tail) && Valid(events[..n] + tail) ==> OneProcess(events[..n] + tail)
  }

  /** Exactly the fresh starts keep one process per incarnation, whatever a process reports after its start: with
    * any other start the valid continuations are not all of one process. */
  lemma OneProcessExactly(events: seq<Evidence>)
    requires Valid(events)
    ensures FreshStarts(events) <==> AlwaysOneProcess(events)
  {
    if FreshStarts(events) {
      forall n, tail | 0 <= n <= |events| && Quiet(tail) && Valid(events[..n] + tail)
        ensures OneProcess(events[..n] + tail)
      {
        QuietKeepsFresh(events, n, tail);
        FreshIsOneProcess(events[..n] + tail);
      }
    } else {
      var k :| 0 <= k < |events| && events[k].Starting? && !Unused(events[..k], events[k].incarnation);
      StaleStartDiffers(events, k);
    }
  }

  lemma FreshIsOneProcess(events: seq<Evidence>)
    requires Valid(events) && FreshStarts(events)
    ensures OneProcess(events)
  {
    hide Valid, FreshStarts;
    forall i, j | 0 <= i < |events| && 0 <= j < |events| ensures SameProcess(events[i], events[j]) {
      if events[i].incarnation == events[j].incarnation && PidOf(events[i]).Some? && PidOf(events[j]).Some? {
        if i <= j {
          FreshStartsKeepProcess(events, i, j);
        } else {
          FreshStartsKeepProcess(events, j, i);
        }
      }
    }
  }

  /** A start of an incarnation that had a process can come up as another one. */
  lemma StaleStartDiffers(events: seq<Evidence>, k: nat)
    requires Valid(events) && k < |events| && events[k].Starting? && !Unused(events[..k], events[k].incarnation)
    ensures !AlwaysOneProcess(events)
  {
    var e :| e in events[..k] && e.incarnation == events[k].incarnation && PidOf(e).Some?;
    var before := events[..k];
    StateBefore(events, k);
    assert events[..k + 1] == before + [events[k]];
    var up := RestartedAsAny(before, events[k], PidOf(e).value + 1);
    var all := events[..k + 1] + [up];
    assert Quiet([up]) && Valid(all);
    var i :| 0 <= i < k && before[i] == e;
    assert all[i] == e && all[k + 1] == up;
    assert !SameProcess(all[i], all[k + 1]);
  }

  // ---------- Valid histories, without the automaton ----------

  /** The process identity on record at `i` is still in force after the first `n` events. */
  predicate InForce(events: seq<Evidence>, i: nat, n: nat)
    requires i < n <= |events|
  {
    PidOf(events[i]).Some? && forall k :: i < k < n ==> !events[k].Starting?
  }

  /** No process identity in force is another one. */
  predicate FitsProcess(events: seq<Evidence>, n: nat, pid: Option<nat>)
    requires n <= |events|
  {
    pid.Some? ==> forall i :: 0 <= i < n && InForce(events, i, n) ==> PidOf(events[i]) == pid
  }

  /** Up for the first time, or again after a restart. */
  predicate ComesUp(events: seq<Evidence>, n: nat)
    requires 0 < n <= |events|
  {
    events[n - 1].Restarted? || (n == 1 && events[0].Starting?)
  }

  /** The event at `n` may follow those before it. */
  predicate MayFollow(events: seq<Evidence>, n: nat)
    requires n < |events|
  {
    var e := events[n];
    && e.executable == events[0].executable && e.manifest == events[0].manifest
    && (n == 0 ==> e.Starting?)
    && (n > 0 && !e.Starting? ==> e.incarnation == events[n - 1].incarnation && FitsProcess(events, n, e.pid))
    && (n > 0 ==>
          match e
          case Starting(_, _, incarnation) => events[n - 1].Failed? && incarnation != events[n - 1].incarnation
          case Restarted(_, _, _, _, previous) =>
            n > 1 && events[n - 1].Starting? && events[n - 2].incarnation == previous
          case Ready(_, _, _, _) => ComesUp(events, n)
          case Failed(_, _, _, pid, startup) =>
            if startup then ComesUp(events, n) else events[n - 1].Ready? && pid.Some?)
  }

  lemma StaysInForce(front: seq<Evidence>, e: Evidence, i: nat)
    requires i < |front|
    ensures InForce(front + [e], i, |front| + 1) <==> InForce(front, i, |front|) && !e.Starting?
  {
    var events := front + [e];
    assert events[|front|] == e && forall k :: 0 <= k < |front| ==> events[k] == front[k];
  }

  /** What the automaton remembers, read off the events. */
  lemma {:induction false} StateReads(events: seq<Evidence>)
    requires Valid(events) && events != []
    ensures var s, n := After(events).value, |events|;
      && s.package == Some((events[0].executable, events[0].manifest))
      && (s.phase == StartingInitial <==> n == 1)
      && (s.phase == StartingRestart ==> n > 1 && s.previousFailed == Some(events[n - 2].incarnation))
      && (s.pid.Some? ==> exists i :: 0 <= i < n && InForce(events, i, n))
      && (forall i :: 0 <= i < n && InForce(events, i, n) ==> PidOf(events[i]) == s.pid)
  {
    var n := |events| - 1;
    var front, e := events[..n], events[n];
    LastEvent(front);
    if n > 0 {
      StateReads(front);
      assert forall i :: 0 <= i < n ==> front[i] == events[i];
      forall i | 0 <= i < n ensures InForce(events, i, n + 1) <==> InForce(front, i, n) && !e.Starting? {
        StaysInForce(front, e, i);
        assert front + [e] == events;
      }
    }
    if PidOf(e).Some? {
      assert InForce(events, n, n + 1);
    }
    if After(front).value.pid.Some? && !e.Starting? {
      var i :| 0 <= i < n && InForce(front, i, n);
      assert InForce(events, i, n + 1);
    }
  }

  lemma StepMayFollow(front: seq<Evidence>, e: Evidence)
    requires Valid(front)
    ensures Next(After(front).value, e).Some? <==> MayFollow(front + [e], |front|)
  {
    var events, n, s := front + [e], |front|, After(front).value;
    assert events[n] == e && forall i :: 0 <= i < n ==> events[i] == front[i];
    LastEvent(front);
    if n > 0 {
      StateReads(front);
      assert forall i :: 0 <= i < n ==> (InForce(events, i, n) <==> InForce(front, i, n));
      assert !e.Starting? ==> (ConsistentPid(s.pid, e.pid) <==> FitsProcess(events, n, e.pid));
      hide InForce, FitsProcess;
    }
  }

  /** A history is valid exactly when each of its events may follow those before it. */
  lemma {:induction false} ValidExactly(events: seq<Evidence>)
    ensures Valid(events) <==> forall n :: 0 <= n < |events| ==> MayFollow(events, n)
  {
    if events != [] {
      var m := |events| - 1;
      var front, e := events[..m], events[m];
      ValidExactly(front);
      assert events == front + [e];
      forall n | 0 <= n < m ensures MayFollow(events, n) == MayFollow(front, n) {
        assert forall i :: 0 <= i <= n ==> events[i] == front[i];
        assert forall i :: 0 <= i < n ==> (InForce(events, i, n) <==> InForce(front, i, n));
      }
      if Valid(front) {
        StepMayFollow(front, e);
      }
      hide MayFollow, Next;
    }
  }

  // ---------- The stored history ----------

  type Event = StoredEvent<Id, Evidence>

  function Payloads(events: seq<Event>): (evidence: seq<Evidence>)
    ensures |evidence| == |events|
  {
    seq(|events|, i requires 0 <= i < |events| => events[i].payload)
  }

  /** What a caller may pin down in advance: the correlation, and what caused the first event. */
  datatype Expected = Expected(correlation: Option<Id>, causation: Option<Option<Id>>)

  /** One correlation, an unbroken causation chain from what was expected on, evidence of the schema, and a
    * valid lifecycle. */
  predicate StoredHistory(events: seq<Event>, expected: Expected) {
    && (forall i :: 0 <= i < |events| ==> Chained(events, i, expected) && WellTyped(events[i].payload))
    && Valid(Payloads(events))
  }

  predicate Chained(events: seq<Event>, i: nat, expected: Expected)
    requires i < |events|
  {
    && events[i].correlationId == (if expected.correlation.Some? then expected.correlation.value
                                   else events[0].correlationId)
    && (i > 0 ==> events[i].causationId == Some(events[i - 1].eventId))
    && (i == 0 && expected.causation.Some? ==> events[i].causationId == expected.causation.value)
  }

  method ValidateStoredHistory(events: seq<Event>, expected: Expected)
    returns (evidence: Option<seq<Evidence>>)
    ensures evidence.Some? <==> StoredHistory(events, expected)
    ensures evidence.Some? ==> evidence.value == Payloads(events)
  {
    var collected: seq<Evidence> := [];
    var correlation := expected.correlation;
    var previous: Option<Option<Id>> := expected.causation;
    for i := 0 to |events|
      invariant collected == Payloads(events[..i])
      invariant correlation == if i == 0 || expected.correlation.Some? then expected.correlation
                               else Some(events[0].correlationId)
      invariant previous == if i == 0 then expected.causation else Some(Some(events[i - 1].eventId))
      invariant forall k :: 0 <= k < i ==> Chained(events, k, expected) && WellTyped(events[k].payload)
    {
      if correlation.None? {
        correlation := Some(events[i].correlationId);
      }
      if Some(events[i].correlationId) != correlation
         || ((i > 0 || expected.causation.Some?) && Some(events[i].causationId) != previous) {
        assert !Chained(events, i, expected);
        return None;
      }
      if !WellTyped(events[i].payload) {
        return None;
      }
      collected := collected + [events[i].payload];
      previous := Some(Some(events[i].eventId));
    }
    assert events[..|events|] == events;
    var valid := ValidateLifecycle(collected);
    evidence := if valid then Some(collected) else None;
  }

  function Pinned(correlation: Id, context: Option<Id>): Expected {
    Expected(Some(correlation), Some(context))
  }

  /** What a sink keeps can be replayed by someone who expects nothing in particular. */
  lemma PinnedReplays(events: seq<Event>, correlation: Id, context: Option<Id>)
    requires StoredHistory(events, Pinned(correlation, context))
    ensures StoredHistory(events, Expected(None, None))
  {
    forall i | 0 <= i < |events|
      ensures Chained(events, i, Expected(None, None)) && WellTyped(events[i].payload)
    {
      assert Chained(events, i, Pinned(correlation, context)) && Chained(events, 0, Pinned(correlation, context));
    }
  }

  // ---------- The sink ----------

  /** The evidence sink of one supervised process. Other sinks may share its journal: a record goes in only
    * if the stream is exactly what this sink has retained. */
  class JournalAgentTrailEvidenceSink {
    const journal: Journal<Id, Evidence>
    const stream: Id
    const correlation: Id
    const context: Option<Id>
    var version: nat
    var causationId: Option<Id>
    var evidence: seq<Evidence>

    /** What the stream held when this sink last looked. */
    predicate Retains(events: seq<Event>)
      reads this
    {
      && Payloads(events) == evidence && |events| == version
      && causationId == (if events == [] then context else Some(events[|events| - 1].eventId))
    }

    ghost predicate Invariant()
      reads this, journal
    {
      && version <= |Read(journal.streams, stream)| && Retains(Read(journal.streams, stream)[..version])
      && Valid(evidence)
      && StoredHistory(Read(journal.streams, stream), Pinned(correlation, context))
    }

    constructor Open(journal: Journal<Id, Evidence>, stream: Id, correlation: Id, context: Option<Id>,
                     retained: seq<Event>)
      requires retained == Read(journal.streams, stream) && StoredHistory(retained, Pinned(correlation, context))
      ensures Invariant() && this.journal == journal && this.stream == stream && evidence == Payloads(retained)
    {
      this.journal := journal;
      this.stream := stream;
      this.correlation := correlation;
      this.context := context;
      this.version := |retained|;
      this.causationId := if retained == [] then context else Some(retained[|retained| - 1].eventId);
      this.evidence := Payloads(retained);
      new;
      assert Valid(Payloads(retained));
      hide StoredHistory, Valid;
      assert retained[..|retained|] == retained;
    }

    /** A sink for what the stream holds; none if that is no valid history. */
    static method Attach(journal: Journal<Id, Evidence>, stream: Id, correlation: Id, context: Option<Id>)
      returns (sink: Option<JournalAgentTrailEvidenceSink>)
      ensures sink.Some? <==> StoredHistory(Read(journal.streams, stream), Pinned(correlation, context))
      ensures sink.Some? ==>
                && fresh(sink.value) && sink.value.Invariant() && sink.value.journal == journal
                && sink.value.stream == stream && sink.value.evidence == Payloads(Read(journal.streams, stream))
    {
      var retained := journal.ReadStream(stream);
      var replayed := ValidateStoredHistory(retained, Pinned(correlation, context));
      if replayed.None? {
        return None;
      }
      var attached := new JournalAgentTrailEvidenceSink.Open(journal, stream, correlation, context, retained);
      sink := Some(attached);
    }

    /** Records one event, or refuses it: the journal's history stays valid over any run of records. */
    method Record(candidate: Evidence, id: Id) returns (recorded: bool)
      requires Invariant()
      modifies this, journal
      ensures Invariant()
      ensures recorded ==>
                && evidence == old(evidence) + [candidate] && Valid(old(evidence) + [candidate])
                && Read(journal.streams, stream) == old(Read(journal.streams, stream)) +
                     [StoredEvent(id, stream, old(version) + 1, candidate, old(causationId), correlation)]
      ensures !recorded ==> journal.streams == old(journal.streams) && evidence == old(evidence)
    {
      hide StoredHistory, After, WellTyped, Stamp, Applied;
      if !WellTyped(candidate) {
        return false;
      }
      var valid := ValidateLifecycle(evidence + [candidate]);
      if !valid {
        return false;
      }
      var writes := [Write(stream, version, [NewEvent(id, candidate, causationId, correlation)])];
      ghost var before := journal.streams;
      var outcome := journal.AppendAtomically(writes);
      if outcome != Appended {
        return false;
      }
      assert |Read(before, writes[0].stream)| == version;
      ghost var events := Read(before, stream);
      ExtendedStream(before, writes, 0);
      StampOne(stream, version, writes[0].events[0]);
      assert events[..version] == events;
      StillChained(events, StoredEvent(id, stream, version + 1, candidate, causationId, correlation), correlation,
                   context);
      version := version + 1;
      causationId := Some(id);
      evidence := evidence + [candidate];
      recorded := true;
      assert Read(journal.streams, stream)[..version] == Read(journal.streams, stream);
    }
  }

  lemma StampOne(stream: Id, n: nat, e: NewEvent<Evidence>)
    ensures Stamp(stream, n, [e]) == [StoredEvent(e.eventId, stream, n + 1, e.payload, e.causationId, e.correlationId)]
  {
  }

  lemma StillChained(events: seq<Event>, e: Event, correlation: Id, causation: Option<Id>)
    requires StoredHistory(events, Pinned(correlation, causation)) && Valid(Payloads(events) + [e.payload])
    requires WellTyped(e.payload) && e.correlationId == correlation
    requires e.causationId == if events == [] then causation else Some(events[|events| - 1].eventId)
    ensures StoredHistory(events + [e], Pinned(correlation, causation))
            && Payloads(events + [e]) == Payloads(events) + [e.payload]
  {
    var longer := events + [e];
    assert Payloads(longer) == Payloads(events) + [e.payload];
    forall i | 0 <= i < |longer| ensures Chained(longer, i, Pinned(correlation, causation))
           && WellTyped(longer[i].payload)
    {
      if i < |events| {
        assert Chained(events, i, Pinned(correlation, causation));
      }
    }
  }
}
