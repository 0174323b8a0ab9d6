/** Single-use grants of the GitHub effect broker: their streams and the checks made on them. */
module GrantModel {
  import opened EventJournal

  const MAX_RECONCILIATIONS := 5
  const MINIMUM_COMPLETED := 4
  const ZERO_OID: Id := 0

  datatype Ref = Heads(name: Id) | OtherRef(ref: Id)

  /** An action stands for its own digest. */
  datatype Action =
    | Push(repository: Id, targetRef: Ref, sourceCommit: Id, expectedOldOid: Id)
    | PullRequest(repository: Id, pushGrantId: Id, headRef: Id, headCommit: Id, base: Id, title: Id, body: Id,
                  draft: bool)

  datatype Grant = Grant(action: Action, audience: bool, expiresAt: int)

  /** Likewise a policy for its digest; `host` says that GitHub effects are brokered on the host. */
  datatype Policy = Policy(host: bool, grants: map<Id, Grant>)

  datatype Outcome = Completed | Failed | Uncertain | Denied

  datatype Payload =
    | GrantConsumed(grant: Id, policy: Policy, action: Action, expiresAt: int)
    | EffectAccepted(grant: Id, policy: Policy, action: Action)
    | EffectDenied(grant: Id, policy: Policy, action: Action)
    | EffectObserved(grant: Id, action: Action, outcome: Outcome)
    | EffectReconciled(grant: Id, action: Action, attempt: nat, outcome: Outcome)

  type Event = StoredEvent<Id, Payload>
  type Streams = Store<Id, Payload>
  type Commit = seq<Write<Id, Payload>>

  // ---------- The shape of a grant stream ----------

  function FirstReconciliation(es: seq<Event>): nat {
    if |es| > 2 && es[2].payload.EffectObserved? then 3 else 2
  }

  /** Attempts are numbered from one, all but the last are uncertain, and there are at most five. */
  predicate Reconciliations(es: seq<Event>, g: Id, action: Action, start: nat) {
    && |es| <= start + MAX_RECONCILIATIONS
    && forall i :: start <= i < |es| ==>
         && es[i].payload.EffectReconciled? && es[i].payload.grant == g && es[i].payload.action == action
         && es[i].payload.attempt == i - start + 1
         && es[i].payload.outcome in {Completed, Uncertain}
         && (i < |es| - 1 ==> es[i].payload.outcome == Uncertain)
  }

  /** Denied, or consumed and accepted, then observed at most once, then reconciled. */
  predicate Shape(g: Id, es: seq<Event>) {
    || es == []
    || (|es| == 1 && es[0].payload.EffectDenied?)
    || (|es| >= 2 && es[0].payload.GrantConsumed? && es[1].payload.EffectAccepted?
        && es[0].payload.grant == g && es[1].payload.grant == g
        && es[0].payload.policy == es[1].payload.policy && es[0].payload.action == es[1].payload.action
        && (|es| > 2 && es[2].payload.EffectObserved? ==>
              es[2].payload.grant == g && es[2].payload.action == es[1].payload.action
              && es[2].payload.outcome in {Denied, Uncertain})
        && Reconciliations(es, g, es[1].payload.action, FirstReconciliation(es)))
  }

  predicate EndsCompleted(es: seq<Event>) {
    |es| > 2 && es[|es| - 1].payload.EffectReconciled? && es[|es| - 1].payload.outcome == Completed
  }

  // ---------- The checks of the broker ----------

  predicate GrantCovers(policy: Policy, g: Id, action: Action) {
    g in policy.grants && policy.grants[g].action == action
  }

  /** The push a pull request rests on: created by the policy's own grant for exactly this head. */
  predicate IsPrerequisite(policy: Policy, action: Action)
    requires action.PullRequest?
  {
    && action.pushGrantId in policy.grants
    && policy.grants[action.pushGrantId].action ==
         Push(action.repository, Heads(action.headRef), action.headCommit, ZERO_OID)
  }

  /** Its grant stream shows it accepted under this policy and finally completed. */
  predicate PushCompleted(policy: Policy, action: Action, es: seq<Event>)
    requires action.PullRequest? && IsPrerequisite(policy, action)
  {
    var push := policy.grants[action.pushGrantId].action;
    && |es| >= MINIMUM_COMPLETED && es[0].payload.GrantConsumed? && es[1].payload.EffectAccepted?
    && (forall i :: 2 <= i < |es| ==> es[i].payload.EffectObserved? || es[i].payload.EffectReconciled?)
    && var last := es[|es| - 1].payload;
    && last.EffectReconciled? && last.outcome == Completed
    && es[0].payload.grant == action.pushGrantId && es[0].payload.policy == policy && es[0].payload.action == push
    && es[1].payload.grant == action.pushGrantId && es[1].payload.policy == policy && es[1].payload.action == push
    && last.grant == action.pushGrantId && last.action == push
  }

  predicate HasCompletedPushPrerequisite(policy: Policy, action: Action, v: Streams)
    requires action.PullRequest?
  {
    IsPrerequisite(policy, action) && PushCompleted(policy, action, Read(v, action.pushGrantId))
  }

  predicate Admissible(policy: Policy, g: Id, action: Action, now: int, v: Streams) {
    && policy.host && GrantCovers(policy, g, action)
    && (action.PullRequest? ==> HasCompletedPushPrerequisite(policy, action, v))
    && policy.grants[g].audience && now < policy.grants[g].expiresAt
  }

  /** One more reconciliation of the effect may be recorded. */
  predicate Reconcilable(policy: Policy, g: Id, push: bool, es: seq<Event>, inWindow: bool) {
    && |es| >= 2 && es[0].payload.GrantConsumed? && es[1].payload.EffectAccepted?
    && es[1].payload.grant == g && es[1].payload.policy == policy && es[1].payload.action.Push? == push
    && g in policy.grants && policy.grants[g].action == es[1].payload.action
    && es[0].payload.grant == g && es[0].payload.policy == policy && es[0].payload.action == es[1].payload.action
    && es[0].payload.expiresAt == policy.grants[g].expiresAt && policy.grants[g].audience
    && (|es| > 2 && es[2].payload.EffectObserved? ==>
          es[2].payload.grant == g && es[2].payload.action == es[1].payload.action
            && es[2].payload.outcome == Uncertain)
    && Attempts(es, g, es[1].payload.action, FirstReconciliation(es), |es|)
    && (|es| > FirstReconciliation(es) ==> es[|es| - 1].payload.outcome !in {Completed, Failed})
    && |es| - FirstReconciliation(es) < MAX_RECONCILIATIONS && inWindow
  }

  predicate Attempts(es: seq<Event>, g: Id, action: Action, start: nat, n: nat)
    requires n <= |es|
  {
    forall i :: start <= i < n ==>
      es[i].payload.EffectReconciled? && es[i].payload.grant == g && es[i].payload.action == action
      && es[i].payload.attempt == i - start + 1
  }

  datatype Due = Due(action: Action, attempt: nat, version: nat)

  /** The strict replay before a reconciliation. */
  method ReconciliationState(policy: Policy, g: Id, push: bool, es: seq<Event>, inWindow: bool) returns (r: Option<Due>)
    ensures r.Some? <==> Reconcilable(policy, g, push, es, inWindow)
    ensures r.Some? ==> r.value == Due(es[1].payload.action, |es| - FirstReconciliation(es) + 1, |es|)
  {
    if |es| < 2 || !es[0].payload.GrantConsumed? || !es[1].payload.EffectAccepted? {
      return None;
    }
    var consumption, accepted := es[0].payload, es[1].payload;
    var action := accepted.action;
    if accepted.grant != g || action.Push? != push || accepted.policy != policy || g !in policy.grants
       || consumption.grant != g || consumption.action != action || consumption.policy != policy
       || !policy.grants[g].audience || consumption.expiresAt != policy.grants[g].expiresAt
       || policy.grants[g].action != action {
      return None;
    }
    var start := 2;
    if |es| > 2 && es[2].payload.EffectObserved? {
      if es[2].payload.grant != g || es[2].payload.action != action || es[2].payload.outcome != Uncertain {
        return None;
      }
      start := 3;
    }
    for i := start to |es|
      invariant Attempts(es, g, action, start, i)
    {
      var payload := es[i].payload;
      if !payload.EffectReconciled? || payload.grant != g || payload.action != action
          || payload.attempt != i - start + 1 {
        return None;
      }
    }
    if |es| > start && es[|es| - 1].payload.outcome in {Completed, Failed} {
      return None;
    }
    var attempt := |es| - start + 1;
    if attempt > MAX_RECONCILIATIONS || !inWindow {
      return None;
    }
    r := Some(Due(action, attempt, |es|));
  }
}
