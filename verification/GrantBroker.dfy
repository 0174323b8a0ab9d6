/** The broker itself: its dispatch and reconciliation methods, with other brokers at work between any two
  * of their steps. */
module GrantBroker {
  import opened EventJournal
  import opened GrantModel
  import opened GrantProtocol

  lemma ViewGrows(v: Streams, s: Streams, t: Streams)
    requires StaleView(v, s) && StaleView(s, t)
    ensures StaleView(v, t)
  {
    forall x ensures Read(v, x) <= Read(t, x) {
      assert Read(v, x) <= Read(s, x) <= Read(t, x);
    }
  }

  class GitHubEffectBroker {
    const policy: Policy
    const journal: Journal<Id, Payload>
    ghost var history: seq<World>

    ghost predicate Valid()
      reads this, journal
    {
      |history| > 0 && Run(history) && history[|history| - 1].streams == journal.streams
    }

    ghost function Now(): World
      reads this
      requires |history| > 0
    {
      history[|history| - 1]
    }

    constructor (policy: Policy, journal: Journal<Id, Payload>, ghost past: seq<World>)
      requires Run(past) && past[|past| - 1].streams == journal.streams
      ensures Valid() && this.policy == policy && this.journal == journal && history == past
    {
      this.policy := policy;
      this.journal := journal;
      this.history := past;
    }

    /** Other brokers act here, on calls of their own. A caller knows only this contract. */
    method Interfere(ghost own: Id)
      requires Valid()
      modifies this, journal
      ensures Valid() && old(history) <= history
      ensures StaleView(old(journal.streams), journal.streams)
      ensures own in Now().calls <==> own in old(Now().calls)
      ensures own in Now().calls ==> Now().calls[own] == old(Now().calls)[own]
      ensures own in Now().sent <==> own in old(Now().sent)
    {
    }

    method Learn(known: Streams, g: Id, ghost own: Id) returns (events: seq<Event>, view: Streams)
      requires Valid() && StaleView(known, journal.streams)
      modifies this, journal
      ensures Valid() && old(history) <= history && StaleView(view, journal.streams)
      ensures events == Read(view, g) && view == known[g := events]
      ensures own in Now().calls <==> own in old(Now().calls)
      ensures own in Now().calls ==> Now().calls[own] == old(Now().calls)[own]
      ensures own in Now().sent <==> own in old(Now().sent)
    {
      Interfere(own);
      events := journal.ReadStream(g);
      ViewGrows(known, old(journal.streams), journal.streams);
      view := known[g := events];
    }

    /** One step that commits `writes`. */
    method Commit(view: Streams, ghost op: Op, writes: Commit) returns (outcome: AppendOutcome)
      requires Valid() && StaleView(view, journal.streams) && Guard(Now(), view, op) && writes == Plan(Now(), view, op)
      requires writes != []
      modifies this, journal
      ensures Valid()
      ensures outcome == Appended ==> history == old(history) + [Now()] && Step(old(Now()), Now(), view, op)
      ensures outcome != Appended ==> history == old(history) && journal.streams == old(journal.streams)
    {
      ghost var w := Now();
      outcome := journal.AppendAtomically(writes);
      if outcome == Appended {
        ghost var w' := After(w, view, op);
        assert Step(w, w', view, op);
        assert Next(w, w');
        history := history + [w'];
        hide Step, Next, Guard, Plan;
      }
    }

    /** A step of the books alone. */
    ghost method Book(op: Op)
      requires Valid() && Guard(Now(), map[], op) && Plan(Now(), map[], op) == []
      modifies this
      ensures Valid() && history == old(history) + [Now()] && Step(old(Now()), Now(), map[], op)
      ensures Now() == Booked(old(Now()), op)
    {
      var w := Now();
      var w' := After(w, map[], op);
      assert w' == Booked(w, op);
      assert Step(w, w', map[], op);
      assert Next(w, w');
      history := history + [w'];
      hide Step, Next, Guard, Plan;
    }

    /** Consumes the grant for exactly this action, or refuses; a refusal for cause is recorded when the
      * grant is still unused. */
    method Admit(call: Id, g: Id, action: Action, now: int, ids: seq<Id>) returns (allowed: bool)
      requires Valid() && call !in Now().calls && |ids| >= 3
      modifies this, journal
      ensures Valid() && old(history) <= history && call in Now().calls
      ensures Now().calls[call] == Call(g, policy, action, if allowed then Holding else Over(DeniedReceipt))
      ensures call in Now().sent ==> call in old(Now().sent)
      ensures allowed ==> Authorised(policy, g, action) && now < policy.grants[g].expiresAt
    {
      hide Run, HasCompletedPushPrerequisite;
      var events, other: seq<Event>;
      var view: Streams;
      events, view := Learn(map[], g, call);
      if events != [] {
        Book(Op.Refuse(call, g, policy, action, None, 0));
        return false;
      }
      if action.PullRequest? && action.pushGrantId != g {
        other, view := Learn(view, action.pushGrantId, call);
      }
      if !Admissible(policy, g, action, now, view) {
        allowed := false;
        Refuse(call, g, action, now, view, ids);
        return;
      }
      var writes := [Write(g, 0, [New(ids[0], GrantConsumed(g, policy, action, policy.grants[g].expiresAt), g),
                                  New(ids[1], EffectAccepted(g, policy, action), g)])];
      ghost var op := Op.Admit(call, g, policy, action, now, ids[0], ids[1]);
      var outcome := Commit(view, op, writes);
      allowed := outcome == Appended;
      if !allowed {
        Book(Op.Refuse(call, g, policy, action, None, 0));
      }
      hide Guard, Plan, Admissible;
    }

    method Refuse(call: Id, g: Id, action: Action, now: int, view: Streams, ids: seq<Id>)
      requires Valid() && call !in Now().calls && |ids| >= 3 && StaleView(view, journal.streams)
      requires Read(view, g) == [] && !Admissible(policy, g, action, now, view)
      modifies this, journal
      ensures Valid() && old(history) <= history && call in Now().calls
      ensures Now().calls[call] == Call(g, policy, action, Over(DeniedReceipt)) && Now().sent == old(Now().sent)
    {
      hide Run, Admissible, Reconcilable;
      ghost var op := Op.Refuse(call, g, policy, action, Some(now), ids[2]);
      var outcome := Commit(view, op, [Write(g, 0, [New(ids[2], EffectDenied(g, policy, action), g)])]);
      if outcome != Appended {
        Book(Op.Refuse(call, g, policy, action, None, 0));
      }
    }

    /** Records what became of the effect, right after its acceptance; when a reconciliation got there first
      * the call ends without an answer. */
    method ObserveEffect(call: Id, outcome: Outcome, acknowledged: bool, id: Id, g: Id, action: Action)
      returns (receipt: Receipt)
      requires Valid() && call in Now().calls && outcome in {Denied, Uncertain}
      requires Now().calls[call] == Call(g, policy, action, if outcome == Denied then Holding else Sent)
      modifies this, journal
      ensures Valid() && old(history) <= history && call in Now().calls
      ensures Now().calls[call] == Call(g, policy, action, Over(receipt))
      ensures receipt in {NoReceipt, if outcome == Denied then DeniedReceipt else UncertainReceipt(acknowledged)}
      ensures call in Now().sent <==> call in old(Now().sent)
    {
      hide Run, Admissible, Reconcilable;
      Interfere(call);
      ghost var op := Op.Observe(call, outcome, acknowledged, id);
      var appended := Commit(map[], op, [Write(g, 2, [New(id, EffectObserved(g, action, outcome), g)])]);
      if appended == Appended {
        receipt := if outcome == Denied then DeniedReceipt else UncertainReceipt(acknowledged);
      } else {
        Book(Abandon(call));
        receipt := NoReceipt;
      }
    }

    /** The flag logic of both dispatch methods: everything before the effect may fail and is then denied;
      * from the moment the effect is sent the answer can only be uncertain. */
    method Dispatch(call: Id, g: Id, action: Action, now: int, ids: seq<Id>) returns (receipt: Receipt)
      requires Valid() && call !in Now().calls && call !in Now().sent && |ids| >= 4
      modifies this, journal
      ensures Valid() && old(history) <= history && call in Now().calls
      ensures Now().calls[call] == Call(g, policy, action, Over(receipt))
      ensures receipt == DeniedReceipt ==> call !in Now().sent
      ensures receipt.UncertainReceipt? ==> call in Now().sent
    {
      hide Run, Admissible, Reconcilable;
      var allowed := Admit(call, g, action, now, ids);
      if !allowed {
        return DeniedReceipt;
      }
      var prepared, verified: bool := *, *; // attestation, credential and directory; checks against the remote
      var dispatched, acknowledged := false, false;
      if prepared && verified {
        Interfere(call);
        dispatched := true;
        Book(Send(call));
        acknowledged := *; // the effect itself: exit code, failure or timeout
      }
      if !dispatched {
        receipt := ObserveEffect(call, Denied, false, ids[3], g, action);
      } else {
        receipt := ObserveEffect(call, Uncertain, acknowledged, ids[3], g, action);
      }
    }

    /** One bounded, read-only look at the outside world, recorded under its attempt number. */
    method ReconcileEffect(g: Id, push: bool, inWindow: bool, id: Id, ghost own: Id) returns (outcome: Option<Outcome>)
      requires Valid()
      modifies this, journal
      ensures Valid() && old(history) <= history
      ensures outcome.Some? ==>
                var es := Read(journal.streams, g);
                && |es| > 2 && es[|es| - 1].payload.EffectReconciled? && es[|es| - 1].payload.outcome == outcome.value
                && es[|es| - 1].payload.attempt <= MAX_RECONCILIATIONS
                && Shape(g, es)
    {
      hide Run, Admissible;
      var events: seq<Event>;
      var view: Streams;
      events, view := Learn(map[], g, own);
      var due := ReconciliationState(policy, g, push, events, inWindow);
      if due.None? {
        return None;
      }
      ghost var seen := journal.streams;
      Interfere(own);
      ViewGrows(view, seen, journal.streams);
      var found: bool := *; // what the remote shows
      var result := if found then Completed else Uncertain;
      var recorded := Record(view, g, push, inWindow, due.value, result, id);
      outcome := if recorded then Some(result) else None;
    }

    method Record(view: Streams, g: Id, push: bool, inWindow: bool, due: Due, result: Outcome, id: Id)
      returns (recorded: bool)
      requires Valid() && StaleView(view, journal.streams) && result in {Completed, Uncertain}
      requires Reconcilable(policy, g, push, Read(view, g), inWindow)
      requires var es := Read(view, g);
        due == Due(es[1].payload.action, |es| - FirstReconciliation(es) + 1, |es|)
      modifies this, journal
      ensures Valid() && old(history) <= history
      ensures recorded ==>
                var es := Read(journal.streams, g);
                && |es| > 2 && es[|es| - 1].payload.EffectReconciled? && es[|es| - 1].payload.outcome == result
                && es[|es| - 1].payload.attempt <= MAX_RECONCILIATIONS
                && Shape(g, es)
    {
      hide Run, Admissible, Reconcilable, Shape;
      ghost var op := Op.Reconcile(g, policy, push, inWindow, result, id);
      var appended := Commit(view, op, [Write(g, due.version,
        [New(id, EffectReconciled(g, due.action, due.attempt, result), g)])]);
      if appended == Appended {
        hide Step, Plan, Guard;
        ReconciledLast(history[|history| - 2], Now(), view, op);
        GrantStreamShape(history, |history| - 1, g);
      }
      recorded := appended == Appended;
    }
  }
}
