/** The attention-controlled dispatcher: work runs only on a scope the attention gate admits. */
module Dispatcher {
  import opened EventJournal
  import opened AttentionModel
  import opened AttentionSteps
  import opened AttentionInvariant
  import opened AttentionTheorems
  import opened AttentionHistory
  import opened AttentionServices

  type Dependencies = map<Id, seq<Id>>

  function Direct(dependencies: Dependencies, scope: Id): seq<Id> {
    if scope in dependencies then dependencies[scope] else []
  }

  predicate Walk(dependencies: Dependencies, path: seq<Id>) {
    |path| >= 2 && forall i :: 0 <= i < |path| - 1 ==> path[i + 1] in Direct(dependencies, path[i])
  }

  /** `to` depends on `scope` through one or more direct dependencies, cycles included. */
  ghost predicate Reachable(dependencies: Dependencies, scope: Id, to: Id) {
    exists path :: Walk(dependencies, path) && path[0] == scope && path[|path| - 1] == to
  }

  lemma ReachableStep(dependencies: Dependencies, scope: Id, to: Id)
    requires to in Direct(dependencies, scope)
    ensures Reachable(dependencies, scope, to)
  {
    assert Walk(dependencies, [scope, to]);
  }

  lemma ReachableExtend(dependencies: Dependencies, scope: Id, via: Id, to: Id)
    requires Reachable(dependencies, scope, via) && to in Direct(dependencies, via)
    ensures Reachable(dependencies, scope, to)
  {
    var path :| Walk(dependencies, path) && path[0] == scope && path[|path| - 1] == via;
    assert Walk(dependencies, path + [to]);
  }

  lemma {:induction false} ClosedContainsWalk(dependencies: Dependencies, closed: set<Id>, path: seq<Id>)
    requires Walk(dependencies, path)
    requires forall x :: x in Direct(dependencies, path[0]) ==> x in closed
    requires forall y, x :: y in closed && x in Direct(dependencies, y) ==> x in closed
    ensures path[|path| - 1] in closed
  {
    if |path| == 2 {
      assert path[1] in Direct(dependencies, path[0]);
    } else {
      var front := path[..|path| - 1];
      assert Walk(dependencies, front);
      ClosedContainsWalk(dependencies, closed, front);
      assert path[|path| - 2 + 1] in Direct(dependencies, path[|path| - 2]);
    }
  }

  function Mentioned(dependencies: Dependencies): set<Id> {
    set k, x | k in dependencies && x in dependencies[k] :: x
  }

  /** A worklist over an arbitrary, possibly cyclic, dependency table. */
  method TransitiveDependencies(scope: Id, dependencies: Dependencies) returns (visited: set<Id>)
    ensures forall x :: x in visited <==> Reachable(dependencies, scope, x)
  {
    var pending := Direct(dependencies, scope);
    visited := {};
    forall x | x in pending ensures Reachable(dependencies, scope, x) {
      ReachableStep(dependencies, scope, x);
    }
    while |pending| > 0
      invariant visited <= Mentioned(dependencies)
      invariant forall x :: x in pending ==> x in Mentioned(dependencies) && Reachable(dependencies, scope, x)
      invariant forall x :: x in visited ==> Reachable(dependencies, scope, x)
      invariant forall x :: x in Direct(dependencies, scope) ==> x in visited || x in pending
      invariant forall y, x :: y in visited && x in Direct(dependencies, y) ==> x in visited || x in pending
      decreases Mentioned(dependencies) - visited, |pending|
    {
      var candidate := pending[|pending| - 1];
      ghost var before := pending;
      pending := pending[..|pending| - 1];
      assert forall x :: x in before ==> x == candidate || x in pending;
      if candidate !in visited {
        forall x | x in Direct(dependencies, candidate)
          ensures x in Mentioned(dependencies) && Reachable(dependencies, scope, x)
        {
          ReachableExtend(dependencies, scope, candidate, x);
        }
        visited := visited + {candidate};
        pending := pending + Direct(dependencies, candidate);
      }
    }
    forall x | Reachable(dependencies, scope, x) ensures x in visited {
      var path :| Walk(dependencies, path) && path[0] == scope && path[|path| - 1] == x;
      ClosedContainsWalk(dependencies, visited, path);
    }
  }

  datatype Dispatched = Completed(revision: nat) | Withheld(blocking: set<Id>)

  /** No pending material decision of the run touches the scope or anything it depends on. */
  ghost predicate Clear(s: Streams, runId: Id, scope: Id, dependencies: Dependencies) {
    forall d, x :: Blocks(s, runId, d) && x in ViewAt(s, d).view.affectedScopes + ViewAt(s, d).view.dependentScopes
      ==> x != scope && !Reachable(dependencies, scope, x)
  }

  /** Step `k` admits `admissionId`, on a journal on which the scope is clear. */
  ghost predicate AdmitsClear(history: seq<Streams>, k: nat, runId: Id, admissionId: Id, scope: Id,
                              dependencies: Dependencies)
  {
    && 0 < k < |history| && Clear(history[k - 1], runId, scope, dependencies)
    && exists admitted :: Admits(history[k - 1], history[k], runId, admitted) && admitted.admissionId == admissionId
  }

  lemma AdmittedIsClear(history: seq<Streams>, start: nat, runId: Id, admissionId: Id, scope: Id,
                        dependencies: Dependencies, reachable: set<Id>, revision: nat)
    requires Run(history) && AdmittedSince(history, start, runId, admissionId, scope, reachable, revision)
    requires forall x :: x in reachable <==> Reachable(dependencies, scope, x)
    ensures exists k :: start <= k && AdmitsClear(history, k, runId, admissionId, scope, dependencies)
  {
    hide Run, ViewAt, Reachable;
    var k :| start <= k && AdmitsAt(history, k, runId, admissionId, scope, reachable, revision);
    var s, admitted := history[k - 1], Read(history[k], IndexStream(runId))[revision - 1].payload;
    forall d | Blocks(s, runId, d)
      ensures forall x :: x in ViewAt(s, d).view.affectedScopes + ViewAt(s, d).view.dependentScopes
                ==> x != scope && !Reachable(dependencies, scope, x)
    {
      AdmissionSafety(history, k, runId, admitted, d);
      var touched, considered := ViewAt(s, d).view.affectedScopes + ViewAt(s, d).view.dependentScopes,
                                 {admitted.scopeId} + admitted.dependencies;
      assert forall x :: x in touched && x in considered ==> x in touched * considered;
    }
    assert Admits(s, history[k], runId, admitted) && admitted.admissionId == admissionId;
    assert AdmitsClear(history, k, runId, admissionId, scope, dependencies);
  }

  /** In state `k` of the run `blocking` is exactly the pending attention that touches the scope or something
    * reachable from it. */
  ghost predicate WithheldAt(history: seq<Streams>, k: nat, runId: Id, scope: Id, dependencies: Dependencies,
                             blocking: set<Id>)
  {
    && k < |history|
    && var index := IndexAfter(runId, Read(history[k], IndexStream(runId)));
    && index.Some?
    && forall a :: a in blocking <==> a in index.value.pending && Touches(index.value.pending[a], scope, dependencies)
  }

  ghost predicate Touches(item: Item, scope: Id, dependencies: Dependencies) {
    exists x :: x in item.affectedScopes + item.dependentScopes && (x == scope || Reachable(dependencies, scope, x))
  }

  lemma PausedIsWithheld(history: seq<Streams>, start: nat, runId: Id, scope: Id, dependencies: Dependencies,
                         reachable: set<Id>, blocking: set<Id>)
    requires PausedSince(history, start, runId, {scope} + reachable, blocking)
    requires forall x :: x in reachable <==> Reachable(dependencies, scope, x)
    ensures exists k: nat :: start <= k + 1 && WithheldAt(history, k, runId, scope, dependencies, blocking)
  {
    hide IndexAfter, Reachable;
    var considered := {scope} + reachable;
    var k: nat :| start <= k + 1 && Pauses(history, k, runId, considered, blocking);
    var pending := IndexAfter(runId, Read(history[k], IndexStream(runId))).value.pending;
    forall a | a in pending ensures a in blocking <==> Touches(pending[a], scope, dependencies) {
      TouchesMeets(pending[a], scope, dependencies, considered);
    }
    assert WithheldAt(history, k, runId, scope, dependencies, blocking);
  }

  lemma TouchesMeets(item: Item, scope: Id, dependencies: Dependencies, considered: set<Id>)
    requires forall x :: x in considered <==> x == scope || Reachable(dependencies, scope, x)
    ensures Touches(item, scope, dependencies) <==>
              (item.affectedScopes + item.dependentScopes) * considered != {}
  {
    hide Reachable;
    var touched := item.affectedScopes + item.dependentScopes;
    if x :| x in touched * considered {
      assert x in touched;
    }
    if x :| x in touched && (x == scope || Reachable(dependencies, scope, x)) {
      assert x in touched * considered;
    }
  }

  /** Over the whole run, one admission identity lets work through at one step only. */
  lemma DispatchedOnce(history: seq<Streams>, j: nat, k: nat, runId: Id, first: Payload, second: Payload)
    requires Run(history) && 0 < j < |history| && 0 < k < |history|
    requires Admits(history[j - 1], history[j], runId, first) && Admits(history[k - 1], history[k], runId, second)
    requires first.admissionId == second.admissionId
    ensures j == k
  {
    if j < k {
      DistinctAdmissions(history, j, k, runId, first, second);
    } else if k < j {
      DistinctAdmissions(history, k, j, runId, second, first);
    }
  }

  lemma DistinctAdmissions(history: seq<Streams>, j: nat, k: nat, runId: Id, first: Payload, second: Payload)
    requires Run(history) && 0 < j < k < |history|
    requires Admits(history[j - 1], history[j], runId, first) && Admits(history[k - 1], history[k], runId, second)
    ensures first.admissionId != second.admissionId
  {
    hide Run;
    RunGrows(history, j, k - 1);
    RunGrows(history, k - 1, k);
    var n, m := |Read(history[j - 1], IndexStream(runId))|, |Read(history[k - 1], IndexStream(runId))|;
    assert Read(history[j], IndexStream(runId)) <= Read(history[k - 1], IndexStream(runId));
    assert Read(history[k - 1], IndexStream(runId)) <= Read(history[k], IndexStream(runId));
    AdmittedOnce(history, k, runId, n, m);
  }

  class AttentionControlledDispatcher {
    const attention: AttentionService

    constructor (attention: AttentionService)
      ensures this.attention == attention
    {
      this.attention := attention;
    }

    /** Completed means that the work may run: its admission went through, during this call, on a journal
      * where nothing pending touched the scope or anything reachable from it. */
    method Dispatch(runId: Id, admissionId: Id, scope: Id, dependencies: Dependencies, commandId: Id, evidence: Id)
      returns (r: Result<Dispatched>)
      requires attention.Valid()
      modifies attention, attention.journal
      ensures attention.Valid() && old(attention.history) <= attention.history
      ensures r.Ok? && r.value.Completed? ==>
                exists k :: |old(attention.history)| <= k
                  && AdmitsClear(attention.history, k, runId, admissionId, scope, dependencies)
      ensures r.Ok? && r.value.Withheld? ==>
                && r.value.blocking != {}
                && exists k: nat :: |old(attention.history)| <= k + 1
                     && WithheldAt(attention.history, k, runId, scope, dependencies, r.value.blocking)
    {
      hide Run, AdmitsClear, WithheldAt, Reachable, AdmittedSince, PausedSince;
      var reachable := TransitiveDependencies(scope, dependencies);
      var admission := attention.AdmitScope(runId, admissionId, scope, reachable, commandId, evidence);
      match admission {
        case Err(error) => r := Err(error);
        case Ok(Paused(blocking)) =>
          PausedIsWithheld(attention.history, |old(attention.history)|, runId, scope, dependencies, reachable,
                           blocking);
          r := Ok(Withheld(blocking));
        case Ok(Admitted(revision)) =>
          AdmittedIsClear(attention.history, |old(attention.history)|, runId, admissionId, scope, dependencies,
                          reachable, revision);
          r := Ok(Completed(revision));
      }
    }
  }
}
