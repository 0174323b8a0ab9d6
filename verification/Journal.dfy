/** The append-only event journal every service of the program commits to.
  *
  * A store maps a stream to its events.  A commit is a list of writes, each naming a stream and
  * the version it expects; it is all-or-nothing, and a write without events is a pure version check.
  */
module EventJournal {

  /** Identities and digest-like tokens: values with a total order. */
  type Id = nat

  datatype Option<+T> = None | Some(value: T)

  datatype NewEvent<+P> = NewEvent(eventId: Id, payload: P, causationId: Option<Id>, correlationId: Id)

  datatype StoredEvent<+S, +P> = StoredEvent(
    eventId: Id, streamId: S, streamVersion: nat, payload: P, causationId: Option<Id>, correlationId: Id)

  type Store<S(==), +P> = map<S, seq<StoredEvent<S, P>>>

  datatype Write<+S, +P> = Write(stream: S, expectedVersion: nat, events: seq<NewEvent<P>>)

  datatype AppendOutcome = Appended | Conflict | Busy | Malformed

  function Read<S, P>(store: Store<S, P>, stream: S): seq<StoredEvent<S, P>> {
    if stream in store then store[stream] else []
  }

  /** The stored form of events appended after version `version`. */
  function Stamp<S, P>(stream: S, version: nat, events: seq<NewEvent<P>>): (stored: seq<StoredEvent<S, P>>)
    ensures |stored| == |events|
  {
    seq(|events|, i requires 0 <= i < |events| =>
      StoredEvent(events[i].eventId, stream, version + i + 1, events[i].payload,
                  events[i].causationId, events[i].correlationId))
  }

  predicate WellFormed<S(==), P>(writes: seq<Write<S, P>>) {
    && |writes| > 0
    && forall i, j :: 0 <= i < j < |writes| ==> writes[i].stream != writes[j].stream
  }

  predicate Matches<S, P>(store: Store<S, P>, writes: seq<Write<S, P>>) {
    forall i :: 0 <= i < |writes| ==> |Read(store, writes[i].stream)| == writes[i].expectedVersion
  }

  predicate Accepts<S(==), P>(store: Store<S, P>, writes: seq<Write<S, P>>) {
    WellFormed(writes) && Matches(store, writes)
  }

  function ApplyOne<S, P>(store: Store<S, P>, write: Write<S, P>): Store<S, P> {
    var before := Read(store, write.stream);
    store[write.stream := before + Stamp(write.stream, |before|, write.events)]
  }

  function Applied<S, P>(store: Store<S, P>, writes: seq<Write<S, P>>): Store<S, P> {
    if writes == [] then store
    else ApplyOne(Applied(store, writes[..|writes| - 1]), writes[|writes| - 1])
  }

  ghost predicate WritesTo<S, P>(writes: seq<Write<S, P>>, stream: S) {
    exists i :: 0 <= i < |writes| && writes[i].stream == stream
  }

  /** A commit leaves every stream it does not name alone. */
  lemma {:induction false} UntouchedStream<S, P>(store: Store<S, P>, writes: seq<Write<S, P>>, stream: S)
    requires !WritesTo(writes, stream)
    ensures Read(Applied(store, writes), stream) == Read(store, stream)
  {
    if writes != [] {
      var front := writes[..|writes| - 1];
      assert forall i :: 0 <= i < |front| ==> front[i] == writes[i];
      assert writes[|writes| - 1].stream != stream;
      UntouchedStream(store, front, stream);
    }
  }

  /** A commit with pairwise distinct streams extends each named stream by exactly its own events. */
  lemma {:induction false} ExtendedStream<S, P>(store: Store<S, P>, writes: seq<Write<S, P>>, k: nat)
    requires k < |writes|
    requires forall i, j :: 0 <= i < j < |writes| ==> writes[i].stream != writes[j].stream
    ensures var before := Read(store, writes[k].stream);
      Read(Applied(store, writes), writes[k].stream)
        == before + Stamp(writes[k].stream, |before|, writes[k].events)
  {
    var front, last := writes[..|writes| - 1], writes[|writes| - 1];
    if k == |writes| - 1 {
      UntouchedStream(store, front, last.stream);
    } else {
      assert front[k] == writes[k];
      ExtendedStream(store, front, k);
    }
  }

  // ---------- Stale views ----------

  /** What a client has read so far, stream by stream and possibly at different moments:
    * journals only grow, so each stream it knows is a prefix of the current one. */
  ghost predicate StaleView<S(!new), P>(view: Store<S, P>, store: Store<S, P>) {
    forall x :: Read(view, x) <= Read(store, x)
  }

  /** The heart of optimistic concurrency: a commit whose expected versions come from a stale view
    * is accepted only if, on every stream it names, the view is still current. */
  lemma AcceptedViewIsCurrent<S(!new), P>(view: Store<S, P>, store: Store<S, P>, writes: seq<Write<S, P>>, k: nat)
    requires StaleView(view, store) && Accepts(store, writes)
    requires k < |writes| && writes[k].expectedVersion == |Read(view, writes[k].stream)|
    ensures Read(view, writes[k].stream) == Read(store, writes[k].stream)
  {
    assert Read(view, writes[k].stream) <= Read(store, writes[k].stream);
  }

  /** Stream by stream, one store extends another. */
  lemma AppliedExtends<S(!new), P>(store: Store<S, P>, writes: seq<Write<S, P>>)
    requires WellFormed(writes)
    ensures StaleView(store, Applied(store, writes))
  {
    forall x ensures Read(store, x) <= Read(Applied(store, writes), x) {
      if WritesTo(writes, x) {
        var k :| 0 <= k < |writes| && writes[k].stream == x;
        ExtendedStream(store, writes, k);
      } else {
        UntouchedStream(store, writes, x);
      }
    }
  }

  /** Every event knows its own stream and position. */
  ghost predicate Contiguous<S(!new), P>(store: Store<S, P>) {
    forall x, i :: 0 <= i < |Read(store, x)| ==>
      Read(store, x)[i].streamId == x && Read(store, x)[i].streamVersion == i + 1
  }

  lemma AppliedContiguous<S(!new), P>(store: Store<S, P>, writes: seq<Write<S, P>>)
    requires WellFormed(writes) && Contiguous(store)
    ensures Contiguous(Applied(store, writes))
  {
    var after := Applied(store, writes);
    forall x, i | 0 <= i < |Read(after, x)|
      ensures Read(after, x)[i].streamId == x && Read(after, x)[i].streamVersion == i + 1
    {
      if WritesTo(writes, x) {
        var k :| 0 <= k < |writes| && writes[k].stream == x;
        ExtendedStream(store, writes, k);
      } else {
        UntouchedStream(store, writes, x);
      }
    }
  }

  class Journal<S(==), P> {
    var streams: Store<S, P>

    constructor ()
      ensures streams == map[]
    {
      streams := map[];
    }

    method ReadStream(stream: S) returns (events: seq<StoredEvent<S, P>>)
      ensures events == Read(streams, stream)
    {
      events := Read(streams, stream);
    }

    /** First every version is compared, then every write is applied; a busy database refuses
      * before anything is written. */
    method AppendAtomically(writes: seq<Write<S, P>>) returns (outcome: AppendOutcome)
      modifies this
      ensures outcome == Appended ==> Accepts(old(streams), writes) && streams == Applied(old(streams), writes)
      ensures outcome != Appended ==> streams == old(streams)
      ensures outcome == Malformed <==> !WellFormed(writes)
      ensures outcome == Conflict ==> !Matches(old(streams), writes)
    {
      if !WellFormed(writes) {
        return Malformed;
      }
      if * {
        return Busy;
      }
      for k := 0 to |writes|
        invariant forall i :: 0 <= i < k ==> |Read(streams, writes[i].stream)| == writes[i].expectedVersion
      {
        if |Read(streams, writes[k].stream)| != writes[k].expectedVersion {
          return Conflict;
        }
      }
      for k := 0 to |writes|
        invariant streams == Applied(old(streams), writes[..k])
      {
        assert writes[..k + 1][..k] == writes[..k];
        streams := ApplyOne(streams, writes[k]);
      }
      assert writes[..|writes|] == writes;
      outcome := Appended;
    }
  }
}
