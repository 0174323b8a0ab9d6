/** Any number of brokers over one journal: what each call may do, and what no run can do. */
module GrantProtocol {
  import opened EventJournal
  import opened GrantModel

  datatype Receipt = DeniedReceipt | UncertainReceipt(acknowledged: bool) | NoReceipt

  /** A call of push or createPullRequest: refused, holding its grant, dispatched, or over. */
  datatype Phase = Holding | Sent | Over(receipt: Receipt)

  datatype Call = Call(grant: Id, policy: Policy, action: Action, phase: Phase)

  /** The journal, the calls so far and, as a ghost of the outside world, the calls whose effect was sent. */
  datatype World = World(streams: Streams, calls: map<Id, Call>, sent: set<Id>, holders: set<Id>)

  datatype Op =
    | Refuse(call: Id, grant: Id, policy: Policy, action: Action, forCause: Option<int>, id: Id)
    | Admit(call: Id, grant: Id, policy: Policy, action: Action, now: int, id: Id, second: Id)
    | Send(call: Id)
    | Observe(call: Id, outcome: Outcome, acknowledged: bool, id: Id)
    | Abandon(call: Id)
    | Reconcile(grant: Id, policy: Policy, push: bool, inWindow: bool, outcome: Outcome, id: Id)

  function New(id: Id, payload: Payload, g: Id): NewEvent<Payload> {
    NewEvent(id, payload, None, g)
  }

  predicate Guard(w: World, v: Streams, op: Op) {
    match op
    case Refuse(call, g, policy, action, forCause, _) =>
      && call !in w.calls
      && (forCause.Some? ==> Read(v, g) == [] && !Admissible(policy, g, action, forCause.value, v))
    case Admit(call, g, policy, action, now, _, _) =>
      call !in w.calls && Read(v, g) == [] && Admissible(policy, g, action, now, v)
    case Send(call) => call in w.calls && w.calls[call].phase == Holding
    case Observe(call, outcome, _, _) =>
      call in w.calls && (if outcome == Denied then w.calls[call].phase == Holding
                          else outcome == Uncertain && w.calls[call].phase == Sent)
    case Abandon(call) => call in w.calls && !w.calls[call].phase.Over?
    case Reconcile(g, policy, push, inWindow, outcome, _) =>
      Reconcilable(policy, g, push, Read(v, g), inWindow) && outcome in {Completed, Uncertain}
  }

  function Plan(w: World, v: Streams, op: Op): Commit
    requires Guard(w, v, op)
  {
    match op
    case Refuse(_, g, policy, action, forCause, id) =>
      if forCause.Some? then [Write(g, 0, [New(id, EffectDenied(g, policy, action), g)])] else []
    case Admit(_, g, policy, action, _, id, second) =>
      [Write(g, 0, [New(id, GrantConsumed(g, policy, action, policy.grants[g].expiresAt), g),
                    New(second, EffectAccepted(g, policy, action), g)])]
    case Send(_) => []
    case Observe(call, outcome, _, id) =>
      var c := w.calls[call];
      [Write(c.grant, 2, [New(id, EffectObserved(c.grant, c.action, outcome), c.grant)])]
    case Abandon(_) => []
    case Reconcile(g, _, _, _, outcome, id) =>
      var es := Read(v, g);
      [Write(g, |es|, [New(id, EffectReconciled(g, es[1].payload.action, |es| - FirstReconciliation(es) + 1, outcome),
                           g)])]
  }

  function Enter(w: World, call: Id, c: Call): World {
    w.(calls := w.calls[call := c])
  }

  /** The books of the world after `op`. */
  function Booked(w: World, op: Op): World
    requires op.Send? || op.Observe? || op.Abandon? ==> op.call in w.calls
  {
    match op
    case Refuse(call, g, policy, action, _, _) => Enter(w, call, Call(g, policy, action, Over(DeniedReceipt)))
    case Admit(call, g, policy, action, _, _, _) =>
      Enter(w, call, Call(g, policy, action, Holding)).(holders := w.holders + {call})
    case Send(call) => Enter(w, call, w.calls[call].(phase := Sent)).(sent := w.sent + {call})
    case Observe(call, outcome, acknowledged, _) =>
      Enter(w, call, w.calls[call].(phase := Over(if outcome == Denied then DeniedReceipt
                                                  else UncertainReceipt(acknowledged))))
    case Abandon(call) => Enter(w, call, w.calls[call].(phase := Over(NoReceipt)))
    case Reconcile(_, _, _, _, _, _) => w
  }

  /** One step: checks on a stale view, the version check on the current journal. */
  ghost predicate Step(w: World, w': World, v: Streams, op: Op) {
    && StaleView(v, w.streams) && Guard(w, v, op)
    && (Plan(w, v, op) != [] ==> Accepts(w.streams, Plan(w, v, op)))
    && w' == Booked(w, op).(streams := Applied(w.streams, Plan(w, v, op)))
  }

  ghost predicate Next(w: World, w': World) {
    exists v, op :: Step(w, w', v, op)
  }

  ghost predicate Run(run: seq<World>) {
    && |run| > 0 && run[0] == World(map[], map[], {}, {})
    && forall i :: 0 < i < |run| ==> Next(run[i - 1], run[i])
  }

  // ---------- The invariant ----------

  /** The grant of a call that was admitted is consumed by exactly that call's action. */
  predicate HolderOk(w: World, call: Id) {
    && call in w.calls
    && var c, es := w.calls[call], Read(w.streams, w.calls[call].grant);
    && |es| >= 2 && es[0].payload.GrantConsumed? && es[1].payload.EffectAccepted?
    && es[1].payload.action == c.action && es[1].payload.policy == c.policy
    && (c.action.PullRequest? ==> HasCompletedPushPrerequisite(c.policy, c.action, w.streams))
  }

  ghost predicate Inv(w: World) {
    && (forall g :: Shape(g, Read(w.streams, g)))
    && (forall call :: call in w.holders ==> HolderOk(w, call))
    && Books(w)
  }

  /** A write planned at the length the client saw finds the stream as the client saw it. */
  lemma Current(v: Streams, s: Streams, g: Id, n: nat)
    requires StaleView(v, s) && |Read(s, g)| == n && n == |Read(v, g)|
    ensures Read(v, g) == Read(s, g)
  {
    assert Read(v, g) <= Read(s, g);
  }

  lemma OneWrite(s: Streams, g: Id, n: nat, events: seq<NewEvent<Payload>>, x: Id)
    requires Accepts(s, [Write(g, n, events)])
    ensures |Read(s, g)| == n
    ensures Read(Applied(s, [Write(g, n, events)]), x) ==
            Read(s, x) + (if x == g then Stamp(g, n, events) else [])
  {
    var ws := [Write(g, n, events)];
    assert |Read(s, ws[0].stream)| == ws[0].expectedVersion;
    if x == g {
      ExtendedStream(s, ws, 0);
    } else {
      UntouchedStream(s, ws, x);
    }
  }

  /** What a step does to the streams. */
  predicate Extends(w: World, w': World, g: Id, events: seq<NewEvent<Payload>>) {
    Read(w'.streams, g) == Read(w.streams, g) + Stamp(g, |Read(w.streams, g)|, events)
  }

  function Target(w: World, op: Op): Id
    requires op.Observe? ==> op.call in w.calls
  {
    match op
    case Refuse(_, g, _, _, _, _) => g
    case Admit(_, g, _, _, _, _, _) => g
    case Send(_) => 0
    case Observe(call, _, _, _) => w.calls[call].grant
    case Abandon(_) => 0
    case Reconcile(g, _, _, _, _, _) => g
  }

  lemma StepEffect(w: World, w': World, v: Streams, op: Op)
    requires Step(w, w', v, op)
    ensures forall x :: x != Target(w, op) ==> Read(w'.streams, x) == Read(w.streams, x)
    ensures Plan(w, v, op) == [] ==> w'.streams == w.streams
    ensures Plan(w, v, op) != [] ==>
              && |Plan(w, v, op)| == 1 && Plan(w, v, op)[0].stream == Target(w, op)
              && Plan(w, v, op)[0].expectedVersion == |Read(w.streams, Target(w, op))|
              && Extends(w, w', Target(w, op), Plan(w, v, op)[0].events)
    ensures op.Reconcile? ==> Read(v, op.grant) == Read(w.streams, op.grant)
  {
    var ws := Plan(w, v, op);
    if ws != [] {
      var g, n, events := ws[0].stream, ws[0].expectedVersion, ws[0].events;
      assert ws == [Write(g, n, events)];
      forall x ensures Read(w'.streams, x) == Read(w.streams, x) + (if x == g then Stamp(g, n, events) else []) {
        OneWrite(w.streams, g, n, events, x);
      }
      if op.Reconcile? {
        Current(v, w.streams, op.grant, n);
      }
    }
    hide Reconcilable, Admissible, Stamp;
  }

  /** A reconciled effect that completed is the last event its grant will ever see. */
  lemma CompletedStays(w: World, w': World, v: Streams, op: Op, g: Id)
    requires Step(w, w', v, op) && EndsCompleted(Read(w.streams, g))
    ensures Read(w'.streams, g) == Read(w.streams, g)
  {
    StepEffect(w, w', v, op);
    hide Step, Admissible;
  }

  lemma StampsOf(g: Id, n: nat, events: seq<NewEvent<Payload>>)
    ensures forall i :: 0 <= i < |events| ==> Stamp<Id, Payload>(g, n, events)[i].payload == events[i].payload
  {
  }

  /** Every commit keeps every grant stream in shape. */
  lemma StepKeepsShape(w: World, w': World, v: Streams, op: Op, g: Id)
    requires Step(w, w', v, op) && Shape(g, Read(w.streams, g)) && Inv(w)
    ensures Shape(g, Read(w'.streams, g))
  {
    StepEffect(w, w', v, op);
    if Plan(w, v, op) != [] && Target(w, op) == g {
      hide Step, Admissible, Stamp, Inv, HasCompletedPushPrerequisite;
      var es, es' := Read(w.streams, g), Read(w'.streams, g);
      StampsOf(g, |es|, Plan(w, v, op)[0].events);
      assert es' == es + Stamp(g, |es|, Plan(w, v, op)[0].events);
      if op.Observe? {
        ObserveKeepsShape(w, v, op, es, es');
      } else if op.Reconcile? {
        hide Reconcilable, Shape;
        ReconcileKeepsShape(op, es, es');
      }
    }
  }

  lemma ObserveKeepsShape(w: World, v: Streams, op: Op, es: seq<Event>, es': seq<Event>)
    requires op.Observe? && Guard(w, v, op) && Inv(w) && es == Read(w.streams, w.calls[op.call].grant) && |es| == 2
    requires |es'| == 3 && es'[..2] == es
    requires es'[2].payload == EffectObserved(w.calls[op.call].grant, w.calls[op.call].action, op.outcome)
    ensures Shape(w.calls[op.call].grant, es')
  {
    assert CallOk(w, op.call);
    assert HolderOk(w, op.call);
    assert Shape(w.calls[op.call].grant, es);
    assert es'[0] == es[0] && es'[1] == es[1];
    hide HasCompletedPushPrerequisite, Inv;
  }

  lemma ReconcileKeepsShape(op: Op, es: seq<Event>, es': seq<Event>)
    requires op.Reconcile? && Reconcilable(op.policy, op.grant, op.push, es, op.inWindow) && Shape(op.grant, es)
    requires op.outcome in {Completed, Uncertain}
    requires |es'| == |es| + 1 && es'[..|es|] == es
    requires es'[|es|].payload ==
               EffectReconciled(op.grant, es[1].payload.action, |es| - FirstReconciliation(es) + 1, op.outcome)
    ensures Shape(op.grant, es')
  {
    assert forall i :: 0 <= i < |es| ==> es'[i] == es[i];
    assert FirstReconciliation(es') == FirstReconciliation(es);
  }

  /** The prerequisite of a pull request, once established, stays established. */
  lemma PrerequisiteStays(w: World, w': World, v: Streams, op: Op, policy: Policy, action: Action)
    requires Step(w, w', v, op) && action.PullRequest? && HasCompletedPushPrerequisite(policy, action, w.streams)
    ensures HasCompletedPushPrerequisite(policy, action, w'.streams)
  {
    CompletedStays(w, w', v, op, action.pushGrantId);
    hide Step;
  }

  lemma FirstTwoStay(w: World, w': World, v: Streams, op: Op, g: Id)
    requires Step(w, w', v, op) && |Read(w.streams, g)| >= 2
    ensures |Read(w'.streams, g)| >= 2
    ensures Read(w'.streams, g)[0] == Read(w.streams, g)[0] && Read(w'.streams, g)[1] == Read(w.streams, g)[1]
  {
    StepEffect(w, w', v, op);
    hide Step;
  }

  lemma StepKeepsHolder(w: World, w': World, v: Streams, op: Op, call: Id)
    requires Step(w, w', v, op) && Inv(w) && call in w.holders
    ensures HolderOk(w', call) && w'.calls[call].grant == w.calls[call].grant
  {
    assert HolderOk(w, call);
    var c := w.calls[call];
    FirstTwoStay(w, w', v, op, c.grant);
    if c.action.PullRequest? {
      PrerequisiteStays(w, w', v, op, c.policy, c.action);
    }
    hide HasCompletedPushPrerequisite, Inv, Admissible, Reconcilable;
  }

  lemma AdmitHolds(w: World, w': World, v: Streams, op: Op)
    requires op.Admit? && Step(w, w', v, op) && Inv(w)
    ensures HolderOk(w', op.call) && w'.calls[op.call].grant == op.grant
    ensures Read(w.streams, op.grant) == []
  {
    StepEffect(w, w', v, op);
    var g, es' := op.grant, Read(w'.streams, op.grant);
    StampsOf(g, 0, Plan(w, v, op)[0].events);
    assert es' == Stamp(g, 0, Plan(w, v, op)[0].events);
    if op.action.PullRequest? {
      AdmittedPrerequisite(w, w', v, op);
    }
    hide HasCompletedPushPrerequisite, Inv, Stamp;
  }

  /** A prerequisite seen in a stale view holds in the journal: a completed stream has no future. */
  lemma AdmittedPrerequisite(w: World, w': World, v: Streams, op: Op)
    requires op.Admit? && op.action.PullRequest? && Step(w, w', v, op) && Inv(w)
    ensures HasCompletedPushPrerequisite(op.policy, op.action, w'.streams)
  {
    var push := op.action.pushGrantId;
    assert Read(v, push) <= Read(w.streams, push);
    assert Shape(push, Read(w.streams, push));
    SeenCompletedIsAll(push, Read(v, push), Read(w.streams, push));
    PrerequisiteStays(w, w', v, op, op.policy, op.action);
  }

  lemma SeenCompletedIsAll(g: Id, seen: seq<Event>, es: seq<Event>)
    requires seen <= es && Shape(g, es) && EndsCompleted(seen)
    ensures seen == es
  {
    assert es[|seen| - 1] == seen[|seen| - 1];
  }

  /** The books of calls: who holds a grant, who sent, who was answered. */
  ghost predicate Books(w: World) {
    && w.holders <= w.calls.Keys && w.sent <= w.holders
    && (forall a, b :: a in w.holders && b in w.holders && w.calls[a].grant == w.calls[b].grant ==> a == b)
    && (forall call :: call in w.calls ==> CallOk(w, call))
  }

  predicate CallOk(w: World, call: Id)
    requires call in w.calls
  {
    match w.calls[call].phase
    case Holding => call in w.holders && call !in w.sent
    case Sent => call in w.sent
    case Over(receipt) => receipt == DeniedReceipt ==> call !in w.sent
  }

  lemma StepKeepsBooks(w: World, w': World, v: Streams, op: Op)
    requires Step(w, w', v, op) && Books(w)
    requires op.Admit? ==> forall call :: call in w.holders ==> w.calls[call].grant != op.grant
    ensures Books(w')
    ensures w'.holders == if op.Admit? then w.holders + {op.call} else w.holders
  {
    hide Admissible, Reconcilable, StaleView, Applied, Accepts, Plan;
  }

  lemma StepKeepsInv(w: World, w': World, v: Streams, op: Op)
    requires Step(w, w', v, op) && Inv(w)
    ensures Inv(w')
  {
    forall g ensures Shape(g, Read(w'.streams, g)) {
      StepKeepsShape(w, w', v, op, g);
    }
    forall call | call in w.holders ensures HolderOk(w', call) {
      StepKeepsHolder(w, w', v, op, call);
    }
    if op.Admit? {
      AdmitHolds(w, w', v, op);
      forall call | call in w.holders ensures w.calls[call].grant != op.grant {
        assert HolderOk(w, call);
      }
    }
    hide Shape, HolderOk, Step;
    StepKeepsBooks(w, w', v, op);
    hide Books;
  }

  lemma {:induction false} RunInv(run: seq<World>, i: nat)
    requires Run(run) && i < |run|
    ensures Inv(run[i])
  {
    if i > 0 {
      RunInv(run, i - 1);
      assert Next(run[i - 1], run[i]);
      var v, op :| Step(run[i - 1], run[i], v, op);
      hide Step, Inv;
      StepKeepsInv(run[i - 1], run[i], v, op);
    }
  }

  // ---------- What it means ----------

  /** Grant streams only ever have the documented shape. */
  lemma GrantStreamShape(run: seq<World>, i: nat, g: Id)
    requires Run(run) && i < |run|
    ensures Shape(g, Read(run[i].streams, g))
  {
    RunInv(run, i);
  }

  /** However many brokers are called however often, one grant sends at most one effect. */
  lemma SentOnce(run: seq<World>, i: nat, a: Id, b: Id)
    requires Run(run) && i < |run| && a in run[i].sent && b in run[i].sent
    requires a in run[i].calls && b in run[i].calls && run[i].calls[a].grant == run[i].calls[b].grant
    ensures a == b
  {
    RunInv(run, i);
  }

  /** A call that was answered "denied" sent nothing. */
  lemma DeniedNeverSent(run: seq<World>, i: nat, call: Id)
    requires Run(run) && i < |run| && call in run[i].calls && run[i].calls[call].phase == Over(DeniedReceipt)
    ensures call !in run[i].sent
  {
    RunInv(run, i);
  }

  lemma StepKeepsSent(w: World, w': World, v: Streams, op: Op)
    requires Step(w, w', v, op)
    ensures w.sent <= w'.sent && w.calls.Keys <= w'.calls.Keys
    ensures forall call :: call in w.calls && w.calls[call].phase.Over? ==>
              w'.calls[call] == w.calls[call] && (call in w'.sent ==> call in w.sent)
    ensures forall call :: call in w.calls ==>
              w'.calls[call].grant == w.calls[call].grant && w'.calls[call].action == w.calls[call].action
              && w'.calls[call].policy == w.calls[call].policy
  {
    hide Admissible, Reconcilable, Shape;
  }

  /** Nor will it ever: the answer is final. */
  lemma {:induction false} DeniedStaysUnsent(run: seq<World>, i: nat, j: nat, call: Id)
    requires Run(run) && i <= j < |run| && call in run[i].calls && run[i].calls[call].phase == Over(DeniedReceipt)
    ensures call in run[j].calls && run[j].calls[call].phase == Over(DeniedReceipt) && call !in run[j].sent
  {
    hide Step;
    DeniedNeverSent(run, i, call);
    if i < j {
      DeniedStaysUnsent(run, i, j - 1, call);
      assert Next(run[j - 1], run[j]);
      var v, op :| Step(run[j - 1], run[j], v, op);
      StepKeepsSent(run[j - 1], run[j], v, op);
    }
    hide Step, Inv, Run;
  }

  lemma {:induction false} PrerequisiteInFuture(run: seq<World>, i: nat, j: nat, policy: Policy, action: Action)
    requires Run(run) && i <= j < |run| && action.PullRequest?
    requires HasCompletedPushPrerequisite(policy, action, run[i].streams)
    ensures HasCompletedPushPrerequisite(policy, action, run[j].streams)
    ensures Read(run[j].streams, action.pushGrantId) == Read(run[i].streams, action.pushGrantId)
  {
    assert EndsCompleted(Read(run[i].streams, action.pushGrantId));
    CompletedInFuture(run, i, j, action.pushGrantId);
    hide Run, IsPrerequisite, PushCompleted;
  }

  /** A pull request that was sent rests on a push whose grant stream ends completed, now and in every
    * later journal. */
  lemma SentPullRequestHasPush(run: seq<World>, i: nat, j: nat, call: Id)
    requires Run(run) && i <= j < |run| && call in run[i].sent && call in run[i].calls
    requires run[i].calls[call].action.PullRequest?
    ensures var c := run[i].calls[call];
      var push := Read(run[j].streams, c.action.pushGrantId);
      && HasCompletedPushPrerequisite(c.policy, c.action, run[j].streams)
      && EndsCompleted(push) && |push| >= MINIMUM_COMPLETED && push == Read(run[i].streams, c.action.pushGrantId)
  {
    RunInv(run, i);
    assert HolderOk(run[i], call);
    var c := run[i].calls[call];
    PrerequisiteInFuture(run, i, j, c.policy, c.action);
    hide Run, Inv;
  }

  /** A push reconciled as completed before its own observation was recorded can never support a pull
    * request: its stream stays one event short of what the prerequisite asks. */
  lemma {:induction false} CompletedUnobservedIsStuck(run: seq<World>, i: nat, j: nat, policy: Policy, action: Action)
    requires Run(run) && i <= j < |run| && action.PullRequest?
    requires EndsCompleted(Read(run[i].streams, action.pushGrantId))
    ensures HasCompletedPushPrerequisite(policy, action, run[j].streams) ==
            HasCompletedPushPrerequisite(policy, action, run[i].streams)
    ensures |Read(run[i].streams, action.pushGrantId)| == 3 ==>
            !HasCompletedPushPrerequisite(policy, action, run[j].streams)
  {
    if i < j {
      assert Next(run[j - 1], run[j]);
      CompletedInFuture(run, i, j, action.pushGrantId);
    }
    hide Run;
  }

  lemma {:induction false} CompletedInFuture(run: seq<World>, i: nat, j: nat, g: Id)
    requires Run(run) && i <= j < |run| && EndsCompleted(Read(run[i].streams, g))
    ensures Read(run[j].streams, g) == Read(run[i].streams, g)
  {
    hide *;
    if i < j {
      CompletedInFuture(run, i, j - 1, g);
      LastKeepsCompleted(run, j, g);
    }
  }

  lemma LastKeepsCompleted(run: seq<World>, j: nat, g: Id)
    requires Run(run) && 0 < j < |run| && EndsCompleted(Read(run[j - 1].streams, g))
    ensures Read(run[j].streams, g) == Read(run[j - 1].streams, g)
  {
    hide Step, EndsCompleted;
    assert Next(run[j - 1], run[j]);
    var v, op :| Step(run[j - 1], run[j], v, op);
    CompletedStays(run[j - 1], run[j], v, op, g);
  }

  /** Under this shape the prerequisite holds exactly when the push's own policy grant ends completed after
    * an observation or a first uncertain reconciliation. */
  lemma PrerequisiteExactly(run: seq<World>, i: nat, policy: Policy, action: Action)
    requires Run(run) && i < |run| && action.PullRequest? && IsPrerequisite(policy, action)
    ensures var es := Read(run[i].streams, action.pushGrantId);
      HasCompletedPushPrerequisite(policy, action, run[i].streams) <==>
        EndsCompleted(es) && |es| != 3 && es[1].payload.EffectAccepted?
        && es[1].payload.policy == policy && es[1].payload.action == policy.grants[action.pushGrantId].action
  {
    RunInv(run, i);
    assert Shape(action.pushGrantId, Read(run[i].streams, action.pushGrantId));
    hide Run, Inv;
  }

  /** What a committed reconciliation leaves behind. */
  lemma ReconciledLast(w: World, w': World, v: Streams, op: Op)
    requires op.Reconcile? && Step(w, w', v, op)
    ensures var es := Read(w'.streams, op.grant);
      && |es| > 2 && es[|es| - 1].payload.EffectReconciled? && es[|es| - 1].payload.outcome == op.outcome
      && es[|es| - 1].payload.attempt <= MAX_RECONCILIATIONS
  {
    StepEffect(w, w', v, op);
    StampsOf(op.grant, |Read(w.streams, op.grant)|, Plan(w, v, op)[0].events);
    hide Step, Stamp;
  }

  function After(w: World, v: Streams, op: Op): World
    requires Guard(w, v, op)
  {
    Booked(w, op).(streams := Applied(w.streams, Plan(w, v, op)))
  }

  // ---------- By whose authority ----------

  /** The host's broker acts on a grant of its policy, made out to it, for exactly this action. */
  predicate Authorised(policy: Policy, g: Id, action: Action) {
    policy.host && g in policy.grants && policy.grants[g].action == action && policy.grants[g].audience
  }

  /** The push a pull request names: a grant of the same policy that creates its head branch at its head commit. */
  predicate NamesPush(policy: Policy, action: Action)
    requires action.PullRequest?
  {
    && action.pushGrantId in policy.grants
    && policy.grants[action.pushGrantId].action.Push?
    && var push := policy.grants[action.pushGrantId].action;
    && push.repository == action.repository && push.targetRef == Heads(action.headRef)
    && push.sourceCommit == action.headCommit && push.expectedOldOid == ZERO_OID
  }

  /** What the streams of a run say of a push that supports a pull request. */
  predicate ShowsPush(policy: Policy, action: Action, es: seq<Event>)
    requires action.PullRequest? && NamesPush(policy, action)
  {
    && |es| >= 4 && es[|es| - 1].payload.EffectReconciled? && es[|es| - 1].payload.outcome == Completed
    && es[1].payload.EffectAccepted? && es[1].payload.policy == policy
    && es[1].payload.action == policy.grants[action.pushGrantId].action
  }

  /** The conditions of admission, one by one. */
  lemma AdmissibleExactly(policy: Policy, g: Id, action: Action, now: int, v: Streams)
    requires action.PullRequest? ==> Shape(action.pushGrantId, Read(v, action.pushGrantId))
    ensures Admissible(policy, g, action, now, v) <==>
              && Authorised(policy, g, action) && now < policy.grants[g].expiresAt
              && (action.PullRequest? ==>
                    NamesPush(policy, action) && ShowsPush(policy, action, Read(v, action.pushGrantId)))
  {
  }

  /** A prefix of a stream in shape is in shape. */
  lemma ShapePrefix(g: Id, seen: seq<Event>, es: seq<Event>)
    requires seen <= es && Shape(g, es)
    ensures |seen| == 1 || Shape(g, seen)
  {
    assert forall i :: 0 <= i < |seen| ==> seen[i] == es[i];
  }

  predicate HolderAuthorised(w: World, call: Id) {
    && call in w.calls && Authorised(w.calls[call].policy, w.calls[call].grant, w.calls[call].action)
    && (w.calls[call].action.PullRequest? ==> NamesPush(w.calls[call].policy, w.calls[call].action))
  }

  ghost predicate HoldersAuthorised(w: World) {
    forall call :: call in w.holders ==> HolderAuthorised(w, call)
  }

  lemma StepKeepsAuthorised(w: World, w': World, v: Streams, op: Op)
    requires Step(w, w', v, op) && HoldersAuthorised(w)
    ensures HoldersAuthorised(w')
  {
    hide Reconcilable, StaleView, Applied, Accepts, PushCompleted, Plan;
  }

  lemma {:induction false} RunAuthorised(run: seq<World>, i: nat)
    requires Run(run) && i < |run|
    ensures HoldersAuthorised(run[i])
  {
    if i > 0 {
      RunAuthorised(run, i - 1);
      assert Next(run[i - 1], run[i]);
      var v, op :| Step(run[i - 1], run[i], v, op);
      hide Step, HoldersAuthorised;
      StepKeepsAuthorised(run[i - 1], run[i], v, op);
    }
  }

  /** Whoever holds a grant, or has sent its effect, does so by the authority of its policy: the host's broker, a
    * grant made out to it, exactly the granted action; and the grant's stream says so. */
  lemma SentIsAuthorised(run: seq<World>, i: nat, call: Id)
    requires Run(run) && i < |run| && call in run[i].calls
    requires call in run[i].sent || run[i].calls[call].phase.Holding?
    ensures var c := run[i].calls[call];
      && Authorised(c.policy, c.grant, c.action) && (c.action.PullRequest? ==> NamesPush(c.policy, c.action))
      && var es := Read(run[i].streams, c.grant);
      && |es| >= 2 && es[0].payload.GrantConsumed? && es[1].payload.EffectAccepted?
      && es[0].payload.grant == c.grant == es[1].payload.grant
      && es[0].payload.policy == c.policy == es[1].payload.policy
      && es[0].payload.action == c.action == es[1].payload.action
  {
    RunAuthorised(run, i);
    RunInv(run, i);
    assert CallOk(run[i], call) && HolderOk(run[i], call);
    assert Shape(run[i].calls[call].grant, Read(run[i].streams, run[i].calls[call].grant));
    hide Run, HasCompletedPushPrerequisite, Authorised, NamesPush;
  }

  /** Why a denial is put on record: on what the broker had read, at its clock, the action was not authorised, the
    * grant had run out, or the push of a pull request was not shown to be complete. */
  predicate Cause(policy: Policy, g: Id, action: Action, now: int, seen: seq<Event>) {
    || !Authorised(policy, g, action)
    || policy.grants[g].expiresAt <= now
    || (action.PullRequest? && !(NamesPush(policy, action) && ShowsPush(policy, action, seen)))
  }

  ghost predicate CausedDenial(w: World, payload: Payload, g: Id)
    requires payload.EffectDenied?
  {
    exists now, seen :: Cause(payload.policy, g, payload.action, now, seen)
      && (payload.action.PullRequest? ==> seen <= Read(w.streams, payload.action.pushGrantId))
  }

  /** Every denial at the head of a grant's stream has its cause. */
  lemma DenialHasCause(run: seq<World>, i: nat, g: Id)
    requires Run(run) && 0 < i < |run| && Read(run[i - 1].streams, g) == []
    requires Read(run[i].streams, g) != [] && Read(run[i].streams, g)[0].payload.EffectDenied?
    ensures CausedDenial(run[i - 1], Read(run[i].streams, g)[0].payload, g)
  {
    RunInv(run, i - 1);
    assert Next(run[i - 1], run[i]);
    var v, op :| Step(run[i - 1], run[i], v, op);
    hide Run;
    StepDenies(run[i - 1], run[i], v, op, g);
  }

  lemma StepDenies(w: World, w': World, v: Streams, op: Op, g: Id)
    requires Inv(w) && Step(w, w', v, op) && Read(w.streams, g) == []
    requires Read(w'.streams, g) != [] && Read(w'.streams, g)[0].payload.EffectDenied?
    ensures CausedDenial(w, Read(w'.streams, g)[0].payload, g)
  {
    StepEffect(w, w', v, op);
    StampsOf(g, 0, Plan(w, v, op)[0].events);
    assert Read(w'.streams, g)[0].payload == Plan(w, v, op)[0].events[0].payload;
    assert op.Refuse? && op.forCause.Some? && op.grant == g;
    var action := op.action;
    if action.PullRequest? {
      var push, seen := action.pushGrantId, Read(v, action.pushGrantId);
      assert seen <= Read(w.streams, push) && Shape(push, Read(w.streams, push));
      ShapePrefix(push, seen, Read(w.streams, push));
      DeniedExactly(op.policy, g, action, op.forCause.value, v);
      assert Cause(op.policy, g, action, op.forCause.value, seen);
    } else {
      DeniedExactly(op.policy, g, action, op.forCause.value, v);
      assert Cause(op.policy, g, action, op.forCause.value, []);
    }
    hide Inv, Step, Admissible, Shape, Cause;
  }

  lemma DeniedExactly(policy: Policy, g: Id, action: Action, now: int, v: Streams)
    requires action.PullRequest? ==>
               |Read(v, action.pushGrantId)| == 1 || Shape(action.pushGrantId, Read(v, action.pushGrantId))
    requires !Admissible(policy, g, action, now, v)
    ensures Cause(policy, g, action, now, if action.PullRequest? then Read(v, action.pushGrantId) else [])
  {
    if action.PullRequest? && |Read(v, action.pushGrantId)| != 1 {
      AdmissibleExactly(policy, g, action, now, v);
    }
  }

  /** When one more reconciliation may be recorded, on a stream as runs produce them: the policy's own grant, for this
    * kind of action, accepted, not denied, not completed, with attempts and time left. */
  lemma ReconcilableExactly(policy: Policy, g: Id, push: bool, es: seq<Event>, inWindow: bool)
    requires Shape(g, es)
    ensures Reconcilable(policy, g, push, es, inWindow) <==>
              && |es| >= 2 && es[1].payload.policy == policy && es[1].payload.action.Push? == push
              && g in policy.grants && policy.grants[g].action == es[1].payload.action && policy.grants[g].audience
              && es[0].payload.expiresAt == policy.grants[g].expiresAt
              && !RecordedDenied(es) && !EndsCompleted(es) && inWindow
              && |es| < (if |es| > 2 && es[2].payload.EffectObserved? then 8 else 7)
  {
  }

  // ---------- When a grant can still be sent ----------

  /** Some call on the grant has sent its effect. */
  ghost predicate GrantSent(w: World, g: Id) {
    exists call :: call in w.calls && w.calls[call].grant == g && call in w.sent
  }

  /** Nothing is on record for the grant yet, or a call holds it or has sent its effect. */
  ghost predicate Sendable(w: World, g: Id) {
    || Read(w.streams, g) == []
    || exists call :: call in w.calls && w.calls[call].grant == g && (w.calls[call].phase.Holding? || call in w.sent)
  }

  /** Any continuation of a run at `w`. */
  ghost predicate Continues(w: World, path: seq<World>) {
    |path| > 0 && path[0] == w && forall i :: 0 < i < |path| ==> Next(path[i - 1], path[i])
  }

  lemma UnsendableStep(w: World, w': World, v: Streams, op: Op, g: Id)
    requires Step(w, w', v, op) && Books(w) && !Sendable(w, g)
    ensures !Sendable(w', g)
  {
    StepEffect(w, w', v, op);
    hide Admissible, Reconcilable, Stamp, Applied, StaleView;
  }

  lemma UnsendableNext(w: World, w': World, g: Id)
    requires Next(w, w') && Inv(w) && !Sendable(w, g)
    ensures Inv(w') && !Sendable(w', g)
  {
    hide Step, Inv, Sendable;
    var v, op :| Step(w, w', v, op);
    StepKeepsInv(w, w', v, op);
    InvHasBooks(w);
    UnsendableStep(w, w', v, op, g);
  }

  lemma InvHasBooks(w: World)
    requires Inv(w)
    ensures Books(w)
  {
    hide Books, Shape, HolderOk;
  }

  lemma LastContinues(w: World, path: seq<World>)
    requires Continues(w, path) && |path| > 1
    ensures Continues(w, path[..|path| - 1]) && Next(path[|path| - 2], path[|path| - 1])
  {
    hide Next;
  }

  lemma {:induction false} UnsendableStays(w: World, path: seq<World>, g: Id)
    requires Inv(w) && Continues(w, path) && !Sendable(w, g)
    ensures Inv(path[|path| - 1]) && !Sendable(path[|path| - 1], g)
  {
    hide Inv, Sendable, Next;
    if |path| > 1 {
      LastContinues(w, path);
      UnsendableStays(w, path[..|path| - 1], g);
      UnsendableNext(path[|path| - 2], path[|path| - 1], g);
    }
  }

  /** A grant is sent in some continuation if and only if nothing is on record for it yet, or a call holds it or
    * has sent it already. */
  lemma GrantMayBeSentExactly(run: seq<World>, i: nat, g: Id)
    requires Run(run) && i < |run|
    ensures (exists path :: Continues(run[i], path) && GrantSent(path[|path| - 1], g)) <==> Sendable(run[i], g)
  {
    var w := run[i];
    RunInv(run, i);
    if Sendable(w, g) {
      var path := WayToSend(w, g);
    }
    forall path | Continues(w, path) && GrantSent(path[|path| - 1], g) ensures Sendable(w, g) {
      if !Sendable(w, g) {
        UnsendableStays(w, path, g);
      }
    }
  }

  lemma WayToSend(w: World, g: Id) returns (path: seq<World>)
    requires Sendable(w, g)
    ensures Continues(w, path) && GrantSent(path[|path| - 1], g)
  {
    if GrantSent(w, g) {
      path := [w];
    } else if call :| call in w.calls && w.calls[call].grant == g && w.calls[call].phase.Holding? {
      var w' := HolderSends(w, call);
      path := [w, w'];
    } else {
      var w', call := Admitted(w, g);
      var w'' := HolderSends(w', call);
      path := [w, w', w''];
    }
    hide Next;
  }

  lemma HolderSends(w: World, call: Id) returns (w': World)
    requires call in w.calls && w.calls[call].phase.Holding?
    ensures Next(w, w') && GrantSent(w', w.calls[call].grant)
  {
    w' := After(w, w.streams, Send(call));
    assert Step(w, w', w.streams, Send(call));
    assert w'.calls[call].grant == w.calls[call].grant;
  }

  lemma Admitted(w: World, g: Id) returns (w': World, call: Id)
    requires Read(w.streams, g) == []
    ensures Next(w, w') && call in w'.calls && w'.calls[call].grant == g && w'.calls[call].phase.Holding?
  {
    call := Unused(w.calls.Keys);
    var admit := Admit(call, g, Policy(true, map[g := Grant(PUSH, true, 1)]), PUSH, 0, 0, 1);
    w' := After(w, w.streams, admit);
    assert Step(w, w', w.streams, admit);
  }

  lemma Unused(used: set<Id>) returns (id: Id)
    ensures id !in used
  {
    Bounded(used, |used| + 1);
    id :| id !in used;
  }

  lemma {:induction false} Bounded(used: set<Id>, n: nat)
    ensures |used| < n ==> exists k: nat :: k < n && k !in used
  {
    if n > 0 && n - 1 in used {
      Bounded(used - {n - 1}, n - 1);
    }
  }

  /** What the journal says about a grant: denied at once, or by the broker before it dispatched. */
  predicate RecordedDenied(es: seq<Event>) {
    || (|es| > 0 && es[0].payload.EffectDenied?)
    || (|es| > 2 && es[2].payload.EffectObserved? && es[2].payload.outcome == Denied)
  }

  predicate RecordedUncertain(es: seq<Event>) {
    |es| > 2 && es[2].payload.EffectObserved? && es[2].payload.outcome == Uncertain
  }

  ghost predicate Told(w: World, g: Id) {
    && (RecordedDenied(Read(w.streams, g)) ==> !Sendable(w, g))
    && (RecordedUncertain(Read(w.streams, g)) ==> GrantSent(w, g))
  }

  lemma DeniedHead(w: World, g: Id)
    requires Inv(w) && |Read(w.streams, g)| > 0 && Read(w.streams, g)[0].payload.EffectDenied?
    ensures !Sendable(w, g)
  {
    forall call | call in w.calls && w.calls[call].grant == g
      ensures !w.calls[call].phase.Holding? && call !in w.sent
    {
      assert CallOk(w, call) && (call in w.holders ==> HolderOk(w, call));
      hide Shape, HasCompletedPushPrerequisite;
    }
  }

  lemma GrantSentStays(w: World, w': World, v: Streams, op: Op, g: Id)
    requires Step(w, w', v, op) && GrantSent(w, g)
    ensures GrantSent(w', g)
  {
    StepKeepsSent(w, w', v, op);
    var call :| call in w.calls && w.calls[call].grant == g && call in w.sent;
    assert call in w'.calls && w'.calls[call].grant == g && call in w'.sent;
    hide Step;
  }

  lemma ObservedTells(w: World, w': World, v: Streams, op: Op, g: Id)
    requires op.Observe? && Step(w, w', v, op) && Inv(w) && g == w.calls[op.call].grant
    ensures Told(w', g)
  {
    StepEffect(w, w', v, op);
    StampsOf(g, 2, Plan(w, v, op)[0].events);
    assert HolderOk(w, op.call) by {
      assert CallOk(w, op.call);
    }
    assert forall call :: call in w.calls ==> CallOk(w, call);
    assert w'.calls[op.call].grant == g;
    hide Inv, Shape, HasCompletedPushPrerequisite, Stamp, Applied, StaleView;
  }

  lemma OtherStepTells(w: World, w': World, v: Streams, op: Op, g: Id)
    requires Step(w, w', v, op) && Inv(w) && Inv(w') && Told(w, g)
    requires !(op.Observe? && g == w.calls[op.call].grant)
    ensures Told(w', g)
  {
    var es, es' := Read(w.streams, g), Read(w'.streams, g);
    assert |es'| > 2 && es'[2].payload.EffectObserved? ==> |es| > 2 && es[2] == es'[2] by {
      StepEffect(w, w', v, op);
      hide Inv, Admissible, Reconcilable, Applied, StaleView;
    }
    if RecordedDenied(es) {
      UnsendableStep(w, w', v, op, g);
    } else if |es'| > 0 && es'[0].payload.EffectDenied? {
      DeniedHead(w', g);
    }
    if GrantSent(w, g) {
      GrantSentStays(w, w', v, op, g);
    }
    hide Inv, Step, Sendable, GrantSent;
  }

  lemma StepTells(w: World, w': World, v: Streams, op: Op, g: Id)
    requires Step(w, w', v, op) && Inv(w) && Inv(w') && Told(w, g)
    ensures Told(w', g)
  {
    if op.Observe? && g == w.calls[op.call].grant {
      ObservedTells(w, w', v, op, g);
    } else {
      OtherStepTells(w, w', v, op, g);
    }
    hide *;
  }

  lemma {:induction false} RunTells(run: seq<World>, i: nat, g: Id)
    requires Run(run) && i < |run|
    ensures Told(run[i], g)
  {
    RunInv(run, i);
    if i > 0 {
      RunTells(run, i - 1, g);
      RunInv(run, i - 1);
      assert Next(run[i - 1], run[i]);
      var v, op :| Step(run[i - 1], run[i], v, op);
      hide Step, Inv, Told;
      StepTells(run[i - 1], run[i], v, op, g);
    }
  }

  /** What a reader of the journal may conclude of the grant itself: once its stream starts with a denial, or its
    * observation is a denial, no call ever sends it; an uncertain observation means that it was sent. */
  lemma RecordedDenialIsFinal(run: seq<World>, i: nat, g: Id, path: seq<World>)
    requires Run(run) && i < |run| && Continues(run[i], path)
    ensures RecordedDenied(Read(run[i].streams, g)) ==> !GrantSent(path[|path| - 1], g)
    ensures RecordedUncertain(Read(run[i].streams, g)) ==> GrantSent(run[i], g)
  {
    RunTells(run, i, g);
    RunInv(run, i);
    if RecordedDenied(Read(run[i].streams, g)) {
      UnsendableStays(run[i], path, g);
    }
    hide Run, Continues, RecordedDenied;
  }

  /** "Denied" speaks of one call, not of its grant: a second call of a grant already used is denied although
    * the first one was sent. */
  lemma DeniedGrantMayBeSent() returns (run: seq<World>)
    ensures Run(run) && |run| == 4
    ensures var w := run[3];
      && w.calls.Keys == {1, 2} && w.calls[1].grant == w.calls[2].grant
      && w.calls[2].phase == Over(DeniedReceipt) && 1 in w.sent
  {
    var w0 := World(map[], map[], {}, {});
    var w1 := FirstAdmitted();
    var w2 := ThenSent(w1);
    var w3 := ThenRefused(w2);
    hide Next;
    run := [w0, w1, w2, w3];
    assert Next(run[0], run[1]) && Next(run[1], run[2]) && Next(run[2], run[3]);
  }

  const PUSH := Push(1, Heads(2), 3, 4)
  const ONE_GRANT := Policy(true, map[7 := Grant(PUSH, true, 10)])

  lemma FirstAdmitted() returns (w: World)
    ensures Next(World(map[], map[], {}, {}), w)
    ensures w.calls == map[1 := Call(7, ONE_GRANT, PUSH, Holding)] && w.sent == {}
    ensures JustAccepted(Read(w.streams, 7))
  {
    var w0 := World(map[], map[], {}, {});
    var admit := Admit(1, 7, ONE_GRANT, PUSH, 0, 100, 101);
    assert Guard(w0, map[], admit);
    w := After(w0, map[], admit);
    assert Step(w0, w, map[], admit);
    StepEffect(w0, w, map[], admit);
    StampsOf(7, 0, Plan(w0, map[], admit)[0].events);
    hide Step, Applied, Admissible, Stamp;
  }

  lemma ThenSent(w: World) returns (w': World)
    requires w.calls == map[1 := Call(7, ONE_GRANT, PUSH, Holding)] && w.sent == {}
    ensures Next(w, w') && w'.calls == map[1 := Call(7, ONE_GRANT, PUSH, Sent)] && w'.sent == {1}
    ensures w'.streams == w.streams
  {
    w' := After(w, map[], Send(1));
    assert Step(w, w', map[], Send(1));
  }

  lemma ThenRefused(w: World) returns (w': World)
    requires w.calls == map[1 := Call(7, ONE_GRANT, PUSH, Sent)] && w.sent == {1}
    ensures Next(w, w') && w'.calls.Keys == {1, 2} && w'.calls[1].grant == w'.calls[2].grant
    ensures w'.calls[2].phase == Over(DeniedReceipt) && 1 in w'.sent
  {
    var refuse := Refuse(2, 7, ONE_GRANT, PUSH, None, 0);
    w' := After(w, map[], refuse);
    assert Step(w, w', map[], refuse);
  }

  /** The push that can never support its pull request: sent, and reconciled as completed before its own
    * observation was recorded. */
  lemma CompletedUnobservedIsReachable() returns (run: seq<World>)
    ensures Run(run) && |run| == 4 && 1 in run[3].sent
    ensures var es := Read(run[3].streams, 7);
      && |es| == 3 && es[0].payload.GrantConsumed? && es[1].payload.EffectAccepted?
      && es[2].payload == EffectReconciled(7, PUSH, 1, Completed) && EndsCompleted(es)
  {
    var w0 := World(map[], map[], {}, {});
    var w1 := FirstAdmitted();
    var w2 := ThenSent(w1);
    var w3 := ThenCompleted(w2);
    hide Next;
    run := [w0, w1, w2, w3];
    assert Next(run[0], run[1]) && Next(run[1], run[2]) && Next(run[2], run[3]);
  }

  predicate JustAccepted(es: seq<Event>) {
    && |es| == 2 && es[0].payload == GrantConsumed(7, ONE_GRANT, PUSH, 10)
    && es[1].payload == EffectAccepted(7, ONE_GRANT, PUSH)
  }

  lemma ThenCompleted(w: World) returns (w': World)
    requires JustAccepted(Read(w.streams, 7))
    ensures Next(w, w') && w'.sent == w.sent
    ensures var es := Read(w'.streams, 7);
      && |es| == 3 && es[0].payload.GrantConsumed? && es[1].payload.EffectAccepted?
      && es[2].payload == EffectReconciled(7, PUSH, 1, Completed)
  {
    var reconcile := Reconcile(7, ONE_GRANT, true, true, Completed, 102);
    assert Guard(w, w.streams, reconcile);
    w' := After(w, w.streams, reconcile);
    assert Step(w, w', w.streams, reconcile);
    StepEffect(w, w', w.streams, reconcile);
    hide Step, Reconcilable;
  }
}
