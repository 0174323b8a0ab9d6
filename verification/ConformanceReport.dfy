/** The conformance report: what it demands of the scheduler's capacity evidence and of the causation of events. */
module ConformanceReport {
  import opened EventJournal
  import opened Sorting

  datatype Resource = Writers | HeavyValidation | Review | Integration

  const RESOURCES := [Writers, HeavyValidation, Review, Integration]

  /** What an event says, as far as the report's refusals look; a negative amount stands for a payload field that
    * is no nonnegative integer, an absent one for a missing field. All kinds but the last are causal. */
  datatype Kind =
    | ConformanceStarted
    | DaemonStarted(limits: map<Resource, int>)
    | ResourcesAcquired(resources: map<Resource, int>)
    | ResourcesReleased(resources: map<Resource, int>)
    | PodEnded(pod: Id)
    | UnitFormed(unit: Id)
    | UnitAccepted(unit: Id)
    | Projectable
    | Other

  datatype Event = Event(id: Id, position: nat, causation: Option<Id>, recordedAt: int, kind: Kind)

  datatype Expectations = Expectations(writers: int, integration: int, validation: Option<int>, review: Option<int>,
                                       pods: nat, trustedNow: Option<int>)

  datatype Report = Report(configured: map<Resource, int>, peak: map<Resource, int>, gaps: seq<Id>)

  function Amount(resources: map<Resource, int>, r: Resource, absent: int): int {
    if r in resources then resources[r] else absent
  }

  predicate MovesResources(e: Event) {
    e.kind.ResourcesAcquired? || e.kind.ResourcesReleased?
  }

  /** How far one event moves the use of a resource. */
  function Moved(e: Event, r: Resource): int {
    if e.kind.ResourcesAcquired? then Amount(e.kind.resources, r, 0)
    else if e.kind.ResourcesReleased? then -Amount(e.kind.resources, r, 0)
    else 0
  }

  predicate ProperAmounts(e: Event) {
    MovesResources(e) ==> forall r :: r in RESOURCES ==> Amount(e.kind.resources, r, 0) >= 0
  }

  /** Acquisitions minus releases of a resource after some events. */
  function Active(events: seq<Event>, r: Resource): int {
    if events == [] then 0 else Active(events[..|events| - 1], r) + Moved(events[|events| - 1], r)
  }

  function Peak(events: seq<Event>, r: Resource): int {
    if events == [] then 0
    else
      var before, now := Peak(events[..|events| - 1], r), Active(events, r);
      if before < now then now else before
  }

  /** The peak is the greatest use over all prefixes, and it is reached. */
  lemma {:induction false} PeakIsMaximum(events: seq<Event>, r: Resource, n: nat) returns (reached: nat)
    requires n <= |events|
    ensures Active(events[..n], r) <= Peak(events, r)
    ensures reached <= |events| && Active(events[..reached], r) == Peak(events, r)
  {
    assert events[..|events|] == events;
    if events == [] {
      reached := 0;
    } else {
      var last := |events| - 1;
      var front := events[..last];
      var earlier := PeakIsMaximum(front, r, if n <= last then n else last);
      assert front[..earlier] == events[..earlier];
      if n <= last {
        assert front[..n] == events[..n];
      }
      reached := if Peak(front, r) < Active(events, r) then |events| else earlier;
    }
  }

  /** No release without an acquisition, at any time. */
  predicate NeverNegative(events: seq<Event>, r: Resource) {
    forall n :: 0 <= n <= |events| ==> Active(events[..n], r) >= 0
  }

  // ---------- Order and capacities ----------

  predicate InSequence(events: seq<Event>) {
    && (forall i :: 0 <= i < |events| ==> events[i].position > 0)
    && (forall i, j :: 0 <= i < j < |events| ==>
          events[i].position < events[j].position && events[i].id != events[j].id)
  }

  method AssertEventSequence(events: seq<Event>) returns (ok: bool)
    ensures ok <==> InSequence(events)
  {
    var ids: set<Id> := {};
    var prior := 0;
    for n := 0 to |events|
      invariant InSequence(events[..n])
      invariant ids == set i | 0 <= i < n :: events[i].id
      invariant prior == if n == 0 then 0 else events[n - 1].position
    {
      if events[n].position <= prior || events[n].id in ids {
        return false;
      }
      prior := events[n].position;
      ids := ids + {events[n].id};
    }
    assert events[..|events|] == events;
    ok := true;
  }

  /** What stands in for a limit the announcement does not name. */
  function Silent(r: Resource, expected: Expectations): int {
    match r
    case Writers => expected.writers
    case Integration => expected.integration
    case HeavyValidation => 0
    case Review => 0
  }

  /** The last announced limits, with the expected ones filled in where they are silent. */
  function Configured(events: seq<Event>, expected: Expectations): (limits: Option<map<Resource, int>>)
    ensures limits.Some? ==> Full(limits.value)
  {
    if events == [] then None
    else
      var last := events[|events| - 1];
      if last.kind.DaemonStarted? then
        var limits := last.kind.limits;
        Some(map r: Resource :: Amount(limits, r, Silent(r, expected)))
      else Configured(events[..|events| - 1], expected)
  }

  /** The announcement at `k` is the last one. */
  predicate LastAnnounced(events: seq<Event>, k: nat) {
    && k < |events| && events[k].kind.DaemonStarted?
    && forall j :: k < j < |events| ==> !events[j].kind.DaemonStarted?
  }

  /** The limits are those of the last announcement; where it is silent, the writers and the integration have the
    * expected capacity, and validation and review none. */
  lemma {:induction false} ConfiguredByLast(events: seq<Event>, k: nat, expected: Expectations)
    requires LastAnnounced(events, k)
    ensures Configured(events, expected).Some?
    ensures var announced, limits := events[k].kind.limits, Configured(events, expected).value;
      && limits[Writers] == (if Writers in announced then announced[Writers] else expected.writers)
      && limits[HeavyValidation] == (if HeavyValidation in announced then announced[HeavyValidation] else 0)
      && limits[Review] == (if Review in announced then announced[Review] else 0)
      && limits[Integration] == (if Integration in announced then announced[Integration] else expected.integration)
  {
    if k < |events| - 1 {
      ConfiguredByLast(events[..|events| - 1], k, expected);
    }
  }

  lemma {:induction false} NothingConfigured(events: seq<Event>, expected: Expectations)
    requires forall k :: 0 <= k < |events| ==> !events[k].kind.DaemonStarted?
    ensures Configured(events, expected).None?
  {
    if events != [] {
      NothingConfigured(events[..|events| - 1], expected);
    }
  }

  /** The last announcement, searched from the end; no limits where there is none or one of them is malformed. */
  method ConfiguredCapacities(events: seq<Event>, expected: Expectations)
    returns (limits: Option<map<Resource, int>>)
    ensures limits.Some? <==>
              && Configured(events, expected).Some?
              && forall r: Resource :: Configured(events, expected).value[r] >= 0
    ensures limits.Some? ==> limits == Configured(events, expected)
  {
    var k := |events|;
    while k > 0 && !events[k - 1].kind.DaemonStarted?
      invariant 0 <= k <= |events|
      invariant forall j :: k <= j < |events| ==> !events[j].kind.DaemonStarted?
    {
      k := k - 1;
    }
    if k == 0 {
      NothingConfigured(events, expected);
      return None;
    }
    ConfiguredByLast(events, k - 1, expected);
    var named := events[k - 1].kind.limits;
    var writers := if Writers in named then named[Writers] else expected.writers;
    var validation := if HeavyValidation in named then named[HeavyValidation] else 0;
    var review := if Review in named then named[Review] else 0;
    var integration := if Integration in named then named[Integration] else expected.integration;
    if writers < 0 || validation < 0 || review < 0 || integration < 0 {
      return None;
    }
    var found: map<Resource, int> :=
      map[Writers := writers, HeavyValidation := validation, Review := review, Integration := integration];
    forall r: Resource ensures r in found && found[r] == Configured(events, expected).value[r] {
      match r case Writers => case HeavyValidation => case Review => case Integration =>
    }
    assert found == Configured(events, expected).value;
    limits := Some(found);
  }

  /** What the caller expected is what is configured; nothing configured is negative. */
  predicate AsExpected(configured: map<Resource, int>, expected: Expectations)
    requires Full(configured)
  {
    && (forall r: Resource :: configured[r] >= 0)
    && configured[Writers] == expected.writers && configured[Integration] == expected.integration
    && (expected.validation.Some? ==> configured[HeavyValidation] == expected.validation.value)
    && (expected.review.Some? ==> configured[Review] == expected.review.value)
  }

  // ---------- The capacity fold ----------

  const Zero: map<Resource, int> := map[Writers := 0, HeavyValidation := 0, Review := 0, Integration := 0]

  lemma Listed(r: Resource)
    ensures r in RESOURCES && r in Zero
  {
    assert RESOURCES[match r case Writers => 0 case HeavyValidation => 1 case Review => 2 case Integration => 3] == r;
  }

  predicate Full(m: map<Resource, int>) {
    forall r: Resource :: r in m
  }

  function Higher(a: int, b: int): int {
    if a < b then b else a
  }

  /** One event, name by name: the new use and the new peaks, or `None` where the code throws. */
  method MoveResources(e: Event, active: map<Resource, int>, highest: map<Resource, int>)
    returns (moved: Option<(map<Resource, int>, map<Resource, int>)>)
    requires MovesResources(e) && Full(active) && Full(highest)
    ensures moved.Some? <==> ProperAmounts(e) && forall r: Resource :: active[r] + Moved(e, r) >= 0
    ensures moved.Some? ==>
              && Full(moved.value.0) && Full(moved.value.1)
              && forall r: Resource ::
                   && moved.value.0[r] == active[r] + Moved(e, r)
                   && moved.value.1[r] == Higher(highest[r], active[r] + Moved(e, r))
  {
    var use, peak := active, highest;
    for k := 0 to |RESOURCES|
      invariant Full(use) && Full(peak)
      invariant forall j :: k <= j < 4 ==>
        use[RESOURCES[j]] == active[RESOURCES[j]] && peak[RESOURCES[j]] == highest[RESOURCES[j]]
      invariant forall j :: 0 <= j < k ==>
        && Amount(e.kind.resources, RESOURCES[j], 0) >= 0
        && use[RESOURCES[j]] == active[RESOURCES[j]] + Moved(e, RESOURCES[j]) >= 0
        && peak[RESOURCES[j]] == Higher(highest[RESOURCES[j]], active[RESOURCES[j]] + Moved(e, RESOURCES[j]))
    {
      var name := RESOURCES[k];
      var amount := Amount(e.kind.resources, name, 0);
      if amount < 0 {
        return None;
      }
      use := use[name := use[name] + (if e.kind.ResourcesAcquired? then amount else -amount)];
      if use[name] < 0 {
        return None;
      }
      peak := peak[name := if peak[name] < use[name] then use[name] else peak[name]];
    }
    moved := Some((use, peak));
    forall r: Resource
      ensures Amount(e.kind.resources, r, 0) >= 0 && use[r] == active[r] + Moved(e, r) >= 0
      ensures peak[r] == Higher(highest[r], active[r] + Moved(e, r))
    {
      Listed(r);
    }
  }

  ghost predicate Tracks(use: map<Resource, int>, peak: map<Resource, int>, events: seq<Event>) {
    && Full(use) && Full(peak)
    && (forall r: Resource :: use[r] == Active(events, r) >= 0)
    && (forall r: Resource :: peak[r] == Peak(events, r) >= Active(events, r))
  }

  predicate ProperHistory(events: seq<Event>) {
    && (forall i :: 0 <= i < |events| ==> ProperAmounts(events[i]))
    && forall r: Resource :: NeverNegative(events, r)
  }

  lemma ExtendHistory(events: seq<Event>, n: nat)
    requires n < |events|
    ensures ProperHistory(events[..n + 1]) <==>
              && ProperHistory(events[..n]) && ProperAmounts(events[n])
              && forall r: Resource :: Active(events[..n], r) + Moved(events[n], r) >= 0
  {
    var front, longer := events[..n], events[..n + 1];
    assert longer[..n] == front && longer[..n + 1] == longer;
    assert forall m :: 0 <= m <= n ==> longer[..m] == front[..m];
    forall r: Resource
      ensures NeverNegative(longer, r) <==> NeverNegative(front, r) && Active(front, r) + Moved(events[n], r) >= 0
    {
      assert Active(longer, r) == Active(front, r) + Moved(events[n], r);
      assert NeverNegative(longer, r) ==> Active(longer[..n + 1], r) >= 0;
    }
  }

  lemma {:induction false} PrefixHistory(events: seq<Event>, n: nat)
    requires n <= |events| && ProperHistory(events)
    ensures ProperHistory(events[..n])
  {
    assert events[..|events|] == events;
    if n < |events| {
      ExtendHistory(events, |events| - 1);
      PrefixHistory(events[..|events| - 1], n);
      assert events[..|events| - 1][..n] == events[..n];
    }
  }

  lemma NothingTracked()
    ensures Tracks(Zero, Zero, []) && ProperHistory([])
  {
    forall r: Resource ensures r in Zero && Zero[r] == 0 {
      Listed(r);
    }
  }

  lemma TracksNext(use: map<Resource, int>, peak: map<Resource, int>, use': map<Resource, int>,
                   peak': map<Resource, int>, events: seq<Event>, n: nat)
    requires n < |events| && Tracks(use, peak, events[..n]) && Full(use') && Full(peak')
    requires forall r: Resource :: use'[r] == use[r] + Moved(events[n], r) >= 0
    requires forall r: Resource :: peak'[r] == Higher(peak[r], use'[r])
    ensures Tracks(use', peak', events[..n + 1])
  {
    assert events[..n + 1][..n] == events[..n];
  }

  lemma StaysTracked(use: map<Resource, int>, peak: map<Resource, int>, events: seq<Event>, n: nat)
    requires n < |events| && Tracks(use, peak, events[..n]) && !MovesResources(events[n]) && ProperHistory(events[..n])
    ensures Tracks(use, peak, events[..n + 1]) && ProperHistory(events[..n + 1])
  {
    TracksNext(use, peak, use, peak, events, n);
    ExtendHistory(events, n);
  }

  lemma MayMove(use: map<Resource, int>, peak: map<Resource, int>, events: seq<Event>, n: nat)
    requires n < |events| && Tracks(use, peak, events[..n]) && ProperHistory(events[..n])
    ensures ProperHistory(events[..n + 1]) <==>
              ProperAmounts(events[n]) && forall r: Resource :: use[r] + Moved(events[n], r) >= 0
    ensures ProperHistory(events) ==> ProperHistory(events[..n + 1])
  {
    ExtendHistory(events, n);
    if ProperHistory(events) {
      PrefixHistory(events, n + 1);
    }
  }

  /** One pass over the events: `None` at the first payload that is no amount or release that was not acquired. */
  method FoldCapacities(events: seq<Event>) returns (peak: Option<map<Resource, int>>)
    ensures peak.Some? <==> ProperHistory(events)
    ensures peak.Some? ==> Full(peak.value) && forall r: Resource :: peak.value[r] == Peak(events, r)
  {
    hide ProperHistory, ProperAmounts, Active, Peak, Moved;
    var active, highest := Zero, Zero;
    assert events[..0] == [] && events[..|events|] == events;
    NothingTracked();
    for n := 0 to |events|
      invariant Tracks(active, highest, events[..n]) && ProperHistory(events[..n])
    {
      if MovesResources(events[n]) {
        MayMove(active, highest, events, n);
        var moved := MoveResources(events[n], active, highest);
        if moved.None? {
          return None;
        }
        TracksNext(active, highest, moved.value.0, moved.value.1, events, n);
        active, highest := moved.value.0, moved.value.1;
      } else {
        StaysTracked(active, highest, events, n);
      }
    }
    peak := Some(highest);
  }

  // ---------- Causation ----------

  predicate IsCausal(e: Event) {
    !e.kind.Other?
  }

  function Causal(events: seq<Event>): (causal: seq<Event>)
    ensures forall k :: 0 <= k < |causal| ==> IsCausal(causal[k]) && causal[k] in events
  {
    if events == [] then []
    else
      var front, last := Causal(events[..|events| - 1]), events[|events| - 1];
      if IsCausal(last) then front + [last] else front
  }

  /** The first causal event starts the conformance run without a cause; every other one names an earlier one. */
  predicate Linked(causal: seq<Event>, i: nat)
    requires i < |causal|
  {
    if i == 0 then causal[0].kind.ConformanceStarted? && causal[0].causation.None?
    else causal[i].causation.Some? && exists j :: 0 <= j < i && causal[j].id == causal[i].causation.value
  }

  function GapsOf(causal: seq<Event>, n: nat): seq<Id>
    requires n <= |causal|
  {
    if n == 0 then []
    else GapsOf(causal, n - 1) + (if Linked(causal, n - 1) then [] else [causal[n - 1].id])
  }

  method CausationGaps(events: seq<Event>) returns (gaps: seq<Id>)
    ensures gaps == GapsOf(Causal(events), |Causal(events)|)
  {
    var causal: seq<Event> := [];
    for n := 0 to |events|
      invariant causal == Causal(events[..n])
    {
      assert events[..n + 1][..n] == events[..n];
      if IsCausal(events[n]) {
        causal := causal + [events[n]];
      }
    }
    assert events[..|events|] == events;
    gaps := [];
    for index := 0 to |causal|
      invariant gaps == GapsOf(causal, index)
    {
      var event := causal[index];
      var valid := if index == 0 then event.kind.ConformanceStarted? && event.causation.None?
                   else event.causation.Some? && event.causation.value in set j | 0 <= j < index :: causal[j].id;
      if !valid {
        gaps := gaps + [event.id];
      }
    }
  }

  /** A chain of causes: indices into the causal events, each strictly before the one it caused. */
  predicate IsChain(causal: seq<Event>, chain: seq<nat>) {
    && chain != []
    && (forall k :: 0 <= k < |chain| ==> chain[k] < |causal|)
    && forall k :: 0 <= k < |chain| - 1 ==>
         chain[k + 1] < chain[k] && causal[chain[k]].causation == Some(causal[chain[k + 1]].id)
  }

  ghost predicate ReachesRoot(causal: seq<Event>, i: nat) {
    exists chain :: IsChain(causal, chain) && chain[0] == i && chain[|chain| - 1] == 0
  }

  lemma {:induction false} NoGaps(causal: seq<Event>, n: nat)
    requires n <= |causal|
    ensures GapsOf(causal, n) == [] <==> forall i :: 0 <= i < n ==> Linked(causal, i)
  {
    if n > 0 {
      NoGaps(causal, n - 1);
    }
  }

  lemma {:induction false} FollowCauses(causal: seq<Event>, i: nat) returns (chain: seq<nat>)
    requires i < |causal| && forall k :: 0 <= k <= i ==> Linked(causal, k)
    ensures IsChain(causal, chain) && chain[0] == i && chain[|chain| - 1] == 0
  {
    if i == 0 {
      chain := [0];
    } else {
      assert Linked(causal, i);
      var j :| 0 <= j < i && causal[j].id == causal[i].causation.value;
      var rest := FollowCauses(causal, j);
      chain := [i] + rest;
    }
  }

  /** Causation is complete exactly when the first causal event is an uncaused start of the conformance run and
    * every causal event reaches it over a finite chain of strictly earlier causes. */
  lemma CausationExactly(causal: seq<Event>)
    ensures GapsOf(causal, |causal|) == [] <==>
              && (causal != [] ==> causal[0].kind.ConformanceStarted? && causal[0].causation.None?)
              && forall i :: 0 <= i < |causal| ==> ReachesRoot(causal, i)
  {
    NoGaps(causal, |causal|);
    if forall i :: 0 <= i < |causal| ==> Linked(causal, i) {
      forall i | 0 <= i < |causal| ensures ReachesRoot(causal, i) {
        var chain := FollowCauses(causal, i);
      }
      assert causal != [] ==> Linked(causal, 0);
    }
    forall i | 0 < i < |causal| && ReachesRoot(causal, i) ensures Linked(causal, i) {
      var chain :| IsChain(causal, chain) && chain[0] == i && chain[|chain| - 1] == 0;
      assert causal[chain[0]].causation == Some(causal[chain[1]].id);
    }
  }

  // ---------- The report ----------

  function Position(): Event -> Id { (e: Event) => e.position }

  function ByPosition(events: seq<Event>): seq<Event> {
    Sorted(Position(), events)
  }

  /** The journal evidence a report is made from. */
  predicate Reportable(ordered: seq<Event>, expected: Expectations) {
    && InSequence(ordered) && ProperHistory(ordered)
    && Configured(ordered, expected).Some? && AsExpected(Configured(ordered, expected).value, expected)
    && WithinCapacity(ordered, Configured(ordered, expected).value)
    && |EndedPods(ordered)| == expected.pods && AcceptedWereFormed(ordered)
    && (expected.trustedNow.Some? ==> LastRecorded(ordered) <= expected.trustedNow.value)
  }

  /** The pods that completed or were cancelled. */
  function EndedPods(ordered: seq<Event>): set<Id> {
    set i | 0 <= i < |ordered| && ordered[i].kind.PodEnded? :: ordered[i].kind.pod
  }

  /** Final acceptance speaks only of integration units that were formed, in whatever order. */
  predicate AcceptedWereFormed(ordered: seq<Event>) {
    forall i :: 0 <= i < |ordered| && ordered[i].kind.UnitAccepted? ==> FormedIn(ordered, ordered[i].kind.unit)
  }

  predicate FormedIn(ordered: seq<Event>, unit: Id) {
    exists j :: 0 <= j < |ordered| && ordered[j].kind == UnitFormed(unit)
  }

  /** A journal without events counts from the epoch. */
  function LastRecorded(ordered: seq<Event>): int {
    if ordered == [] then 0 else ordered[|ordered| - 1].recordedAt
  }

  method TerminalPods(ordered: seq<Event>) returns (pods: set<Id>)
    ensures pods == EndedPods(ordered)
  {
    pods := {};
    for n := 0 to |ordered|
      invariant pods == set i | 0 <= i < n && ordered[i].kind.PodEnded? :: ordered[i].kind.pod
    {
      if ordered[n].kind.PodEnded? {
        pods := pods + {ordered[n].kind.pod};
      }
    }
  }

  method UnitsAreFormed(ordered: seq<Event>) returns (ok: bool)
    ensures ok <==> AcceptedWereFormed(ordered)
  {
    var units := set j | 0 <= j < |ordered| && ordered[j].kind.UnitFormed? :: ordered[j].kind.unit;
    var verified := set i | 0 <= i < |ordered| && ordered[i].kind.UnitAccepted? :: ordered[i].kind.unit;
    forall j | 0 <= j < |ordered| && ordered[j].kind.UnitFormed? ensures FormedIn(ordered, ordered[j].kind.unit) {
      assert ordered[j].kind == UnitFormed(ordered[j].kind.unit);
    }
    ok := verified <= units;
    if AcceptedWereFormed(ordered) {
      forall unit | unit in verified ensures unit in units {
        var i :| 0 <= i < |ordered| && ordered[i].kind.UnitAccepted? && ordered[i].kind.unit == unit;
        assert FormedIn(ordered, unit);
      }
    } else {
      var i :| 0 <= i < |ordered| && ordered[i].kind.UnitAccepted? && !FormedIn(ordered, ordered[i].kind.unit);
      assert ordered[i].kind.unit in verified;
    }
  }

  /** At no time is more in use than the configured capacity. */
  predicate WithinCapacity(ordered: seq<Event>, configured: map<Resource, int>)
    requires Full(configured)
  {
    forall r: Resource, n :: 0 <= n <= |ordered| ==> Active(ordered[..n], r) <= configured[r]
  }

  lemma PeaksDecide(ordered: seq<Event>, configured: map<Resource, int>)
    requires Full(configured)
    ensures WithinCapacity(ordered, configured) <==> forall r: Resource :: Peak(ordered, r) <= configured[r]
  {
    forall r: Resource
      ensures Peak(ordered, r) <= configured[r] <==>
              forall n :: 0 <= n <= |ordered| ==> Active(ordered[..n], r) <= configured[r]
    {
      var reached := PeakIsMaximum(ordered, r, 0);
      forall n | 0 <= n <= |ordered| ensures Active(ordered[..n], r) <= Peak(ordered, r) {
        var _ := PeakIsMaximum(ordered, r, n);
      }
    }
  }

  /** A report exists exactly when the evidence is in order, was announced as expected, stayed within the announced
    * capacities at all times, retains the expected pods, accepts formed units only and does not run ahead of the
    * trusted clock; its peaks are the true ones and its gaps the unlinked causal events. */
  method BuildReport(events: seq<Event>, expected: Expectations) returns (report: Option<Report>)
    ensures report.Some? <==> Reportable(ByPosition(events), expected)
    ensures report.Some? ==>
              var ordered := ByPosition(events);
              && Some(report.value.configured) == Configured(ordered, expected)
              && Full(report.value.peak) && (forall r: Resource :: report.value.peak[r] == Peak(ordered, r))
              && report.value.gaps == GapsOf(Causal(ordered), |Causal(ordered)|)
  {
    var ordered := ByPosition(events);
    var inSequence := AssertEventSequence(ordered);
    if !inSequence {
      return None;
    }
    var found := ConfiguredCapacities(ordered, expected);
    if found.None? {
      return None;
    }
    var configured := found.value;
    if configured[Writers] != expected.writers || configured[Integration] != expected.integration
       || (expected.validation.Some? && configured[HeavyValidation] != expected.validation.value)
       || (expected.review.Some? && configured[Review] != expected.review.value) {
      return None;
    }
    var peak := FoldCapacities(ordered);
    if peak.None? {
      return None;
    }
    PeaksDecide(ordered, configured);
    if exists r: Resource :: r in RESOURCES && peak.value[r] > configured[r] {
      return None;
    }
    forall r: Resource ensures peak.value[r] <= configured[r] {
      Listed(r);
    }
    var pods := TerminalPods(ordered);
    if |pods| != expected.pods {
      return None;
    }
    var formed := UnitsAreFormed(ordered);
    var last := if ordered == [] then 0 else ordered[|ordered| - 1].recordedAt;
    var now := if expected.trustedNow.Some? then expected.trustedNow.value else last;
    if !formed || now < last {
      return None;
    }
    var gaps := CausationGaps(ordered);
    report := Some(Report(configured, peak.value, gaps));
  }

  /** The order in which the events are handed over does not matter. */
  lemma HandoverIsImmaterial(events: seq<Event>, others: seq<Event>)
    requires multiset(events) == multiset(others) && InSequence(ByPosition(events))
    ensures ByPosition(events) == ByPosition(others)
  {
    SortedSorts(Position(), events);
    DistinctPermutes(Position(), ByPosition(events), events);
    SameSorting(Position(), events, others);
  }
}
