/** The hash chain over a writer's standard output, its construction and its checker. */
module WriterEvents {
  import opened EventJournal
  import opened Utf8

  const NEWLINE: Unit := 10
  const MAX_STDOUT_BYTES := 8 * 1024 * 1024
  const MAX_EVENTS := 100000

  datatype Block = Block(tool: Id, path: Option<Id>)

  /** A parsed line; `content` stands for everything else the line says. */
  datatype Record = Record(kind: Option<Id>, status: Option<Id>, tool: Option<Id>, path: Option<Id>,
                           blocks: seq<Block>, content: Id)

  const TOOL_USE: Id := 0

  /** Digests are injective: a digest of text is the text, a digest of a body the body. */
  datatype Body = Body(sequence: nat, kind: Id, status: Option<Id>, tool: Option<Id>, pathDigest: Option<Id>,
                       lineDigest: Text, byteCount: nat, previousPrefix: Text, prefix: Text)

  datatype Event = Event(body: Body, normalized: Body)

  datatype Chain = Chain(stdoutBytes: nat, stdoutDigest: Text, events: seq<Event>)

  // ---------- The checker ----------

  function ByteTotal(events: seq<Event>): nat {
    if events == [] then 0 else ByteTotal(events[..|events| - 1]) + events[|events| - 1].body.byteCount
  }

  function LastPrefix(events: seq<Event>): Text {
    if events == [] then [] else events[|events| - 1].body.prefix
  }

  /** Sequences count from zero and every prefix digest continues the one before. */
  predicate Linked(events: seq<Event>) {
    forall i :: 0 <= i < |events| ==> LinkedAt(events, i)
  }

  predicate LinkedAt(events: seq<Event>, i: nat)
    requires i < |events|
  {
    && events[i].normalized == events[i].body && events[i].body.sequence == i
    && events[i].body.previousPrefix == LastPrefix(events[..i])
  }

  predicate WellFormedChain(chain: Chain) {
    && chain.stdoutBytes <= MAX_STDOUT_BYTES && |chain.events| <= MAX_EVENTS
    && Linked(chain.events)
    && (chain.events != [] ==>
          ByteTotal(chain.events) == chain.stdoutBytes && LastPrefix(chain.events) == chain.stdoutDigest)
    && (chain.events == [] && chain.stdoutBytes == 0 ==> chain.stdoutDigest == [])
  }

  method CheckWriterEventChain(chain: Chain) returns (accepted: bool)
    ensures accepted <==> WellFormedChain(chain)
  {
    if chain.stdoutBytes > MAX_STDOUT_BYTES || |chain.events| > MAX_EVENTS {
      return false;
    }
    var bytes: nat, previous: Text := 0, [];
    for i := 0 to |chain.events|
      invariant bytes == ByteTotal(chain.events[..i]) && previous == LastPrefix(chain.events[..i])
      invariant Linked(chain.events[..i])
    {
      var event := chain.events[i];
      assert chain.events[..i + 1][..i] == chain.events[..i];
      if event.normalized != event.body || event.body.sequence != i || event.body.previousPrefix != previous {
        assert !LinkedAt(chain.events, i);
        return false;
      }
      LinkedSnoc(chain.events, i);
      bytes := bytes + event.body.byteCount;
      previous := event.body.prefix;
    }
    assert chain.events[..|chain.events|] == chain.events;
    if chain.events != [] && (bytes != chain.stdoutBytes || previous != chain.stdoutDigest) {
      return false;
    }
    accepted := chain.events != [] || chain.stdoutBytes != 0 || chain.stdoutDigest == [];
  }

  lemma LinkedAtPrefix(events: seq<Event>, n: nat, i: nat)
    requires i < n <= |events|
    ensures LinkedAt(events[..n], i) <==> LinkedAt(events, i)
  {
    assert events[..n][..i] == events[..i];
  }

  lemma LinkedSnoc(events: seq<Event>, n: nat)
    requires n < |events| && Linked(events[..n]) && LinkedAt(events, n)
    ensures Linked(events[..n + 1])
  {
    hide LinkedAt;
    var longer := events[..n + 1];
    forall i | 0 <= i < |longer| ensures LinkedAt(longer, i) {
      LinkedAtPrefix(events, n + 1, i);
      if i < n {
        LinkedAtPrefix(events, n, i);
        assert LinkedAt(events[..n], i);
      }
    }
  }

  // ---------- Lines ----------

  /** Splitting at newlines. */
  function SplitLines(text: Text): (lines: seq<Text>)
    ensures |lines| > 0
  {
    if text == [] then [[]]
    else
      var rest := SplitLines(text[1..]);
      if text[0] == NEWLINE then [[]] + rest else [[text[0]] + rest[0]] + rest[1..]
  }

  function Framed(lines: seq<Text>): Text {
    if lines == [] then [] else Framed(lines[..|lines| - 1]) + lines[|lines| - 1] + [NEWLINE]
  }

  lemma {:induction false} FramedCons(line: Text, lines: seq<Text>)
    ensures Framed([line] + lines) == line + [NEWLINE] + Framed(lines)
  {
    if lines == [] {
      assert [line][..0] == [];
    } else {
      assert ([line] + lines)[..|lines|] == [line] + lines[..|lines| - 1];
      FramedCons(line, lines[..|lines| - 1]);
    }
  }

  /** Framing the lines again gives back the text, newline included. */
  lemma {:induction false} FramingRestores(text: Text)
    ensures Framed(SplitLines(text)) == text + [NEWLINE]
  {
    if text == [] {
      var blank: seq<Text> := [[]];
      assert blank[..0] == [];
    } else {
      var rest := SplitLines(text[1..]);
      FramingRestores(text[1..]);
      assert text == [text[0]] + text[1..];
      if text[0] == NEWLINE {
        FramedCons([], rest);
      } else {
        FirstLineGrows(text[0], rest);
      }
    }
  }

  lemma Regroup(unit: Unit, line: Text, rest: Text)
    ensures ([unit] + line) + [NEWLINE] + rest == [unit] + (line + [NEWLINE] + rest)
  {
  }

  lemma FirstLineGrows(unit: Unit, lines: seq<Text>)
    requires |lines| > 0
    ensures Framed([[unit] + lines[0]] + lines[1..]) == [unit] + Framed(lines)
  {
    hide Framed;
    FramedCons([unit] + lines[0], lines[1..]);
    FramedCons(lines[0], lines[1..]);
    assert lines == [lines[0]] + lines[1..];
    Regroup(unit, lines[0], Framed(lines[1..]));
  }

  lemma EncodeFramed(lines: seq<Text>, n: nat)
    requires n < |lines|
    ensures Encode(Framed(lines[..n + 1])) == Encode(Framed(lines[..n])) + Encode(lines[n] + [NEWLINE])
    ensures Framed(lines[..n + 1]) == Framed(lines[..n]) + (lines[n] + [NEWLINE])
  {
    assert lines[..n + 1][..n] == lines[..n];
    var before := Framed(lines[..n]);
    if n > 0 {
      assert lines[..n][..n - 1] == lines[..n - 1];
      assert before[|before| - 1] == NEWLINE;
    }
    EncodeConcat(before, lines[n] + [NEWLINE]);
    assert Framed(lines[..n + 1]) == before + (lines[n] + [NEWLINE]);
  }

  // ---------- The construction ----------

  /** How many events a record leaves: one, or one for each nested block. */
  function EventCount(record: Record): nat {
    if record.blocks == [] then 1 else |record.blocks|
  }

  function TotalEvents(records: seq<Record>): nat {
    if records == [] then 0 else TotalEvents(records[..|records| - 1]) + EventCount(records[|records| - 1])
  }

  function Emit(events: seq<Event>, kind: Id, status: Option<Id>, tool: Option<Id>, path: Option<Id>, line: Text,
                byteCount: nat, prefix: Text): seq<Event>
  {
    var body := Body(|events|, kind, status, tool, path, line, byteCount, LastPrefix(events), prefix);
    events + [Event(body, body)]
  }

  lemma AppendLinks(events: seq<Event>, event: Event)
    requires Linked(events) && event.normalized == event.body && event.body.sequence == |events|
    requires event.body.previousPrefix == LastPrefix(events)
    ensures Linked(events + [event])
  {
    var longer := events + [event];
    assert longer[..|events|] == events && longer[..|events| + 1] == longer;
    assert LinkedAt(longer, |events|);
    hide LinkedAt, LastPrefix;
    LinkedSnoc(longer, |events|);
  }

  lemma EmitLinks(events: seq<Event>, kind: Id, status: Option<Id>, tool: Option<Id>, path: Option<Id>, line: Text,
                  byteCount: nat, prefix: Text)
    requires Linked(events)
    ensures var longer := Emit(events, kind, status, tool, path, line, byteCount, prefix);
      && Linked(longer) && ByteTotal(longer) == ByteTotal(events) + byteCount && LastPrefix(longer) == prefix
      && longer[..|events|] == events
  {
    var longer := Emit(events, kind, status, tool, path, line, byteCount, prefix);
    AppendLinks(events, longer[|events|]);
    assert longer[..|events|] == events && longer == events + [longer[|events|]];
    hide Linked;
  }

  /** The events of one line. */
  predicate Covers(events: seq<Event>, prefix: Text, count: nat) {
    Linked(events) && ByteTotal(events) == |Encode(prefix)| && LastPrefix(events) == prefix && |events| == count
  }

  /** The event at `at` says exactly this, of these bytes, between these two prefixes of the output. */
  predicate Says(events: seq<Event>, at: nat, kind: Id, status: Option<Id>, tool: Option<Id>, path: Option<Id>,
                 line: Text, byteCount: nat, before: Text, after: Text)
  {
    && at < |events| && events[at].normalized == events[at].body
    && var body := events[at].body;
    && body.sequence == at && body.kind == kind && body.status == status && body.tool == tool
    && body.pathDigest == path && body.lineDigest == line && body.byteCount == byteCount
    && body.previousPrefix == before && body.prefix == after
  }

  /** The event at `at` retains this tool use; the last of a line carries the line. */
  predicate Retains(events: seq<Event>, at: nat, block: Block, last: bool, framed: Text, prefix: Text) {
    if last then
      Says(events, at, TOOL_USE, None, Some(block.tool), block.path, framed, |Encode(framed)|, prefix, prefix + framed)
    else Says(events, at, TOOL_USE, None, Some(block.tool), block.path, [], 0, prefix, prefix)
  }

  /** The events from `at` on are those of this record on this line: its own, or one for each nested block. */
  predicate RetainsLine(events: seq<Event>, at: nat, record: Record, framed: Text, prefix: Text) {
    && record.kind.Some?
    && (record.blocks == [] ==>
          Says(events, at, record.kind.value, record.status, record.tool, record.path, framed, |Encode(framed)|, prefix,
               prefix + framed))
    && (forall k :: 0 <= k < |record.blocks| ==>
          Retains(events, at + k, record.blocks[k], k == |record.blocks| - 1, framed, prefix))
  }

  lemma RetainsGrows(events: seq<Event>, longer: seq<Event>, at: nat, record: Record, framed: Text, prefix: Text)
    requires RetainsLine(events, at, record, framed, prefix) && events <= longer
    ensures RetainsLine(longer, at, record, framed, prefix)
  {
    hide Encode;
    forall k | 0 <= k < |record.blocks|
      ensures Retains(longer, at + k, record.blocks[k], k == |record.blocks| - 1, framed, prefix)
    {
      assert Retains(events, at + k, record.blocks[k], k == |record.blocks| - 1, framed, prefix);
    }
  }

  /** Of the events from `start` on the last one carries the bytes of the line. */
  predicate CarriedByLast(events: seq<Event>, start: nat, count: nat) {
    && start < |events| && events[|events| - 1].body.byteCount == count
    && forall k :: start <= k < |events| - 1 ==> events[k].body.byteCount == 0
  }

  /** One event per nested block: the line's bytes belong to the last one. */
  method EmitBlocks(events: seq<Event>, blocks: seq<Block>, prefix: Text, framed: Text) returns (longer: seq<Event>)
    requires Linked(events) && ByteTotal(events) == |Encode(prefix)| && LastPrefix(events) == prefix && blocks != []
    requires Encode(prefix + framed) == Encode(prefix) + Encode(framed)
    ensures Covers(longer, prefix + framed, |events| + |blocks|)
    ensures longer[..|events|] == events
    ensures forall k :: 0 <= k < |blocks| ==>
              Retains(longer, |events| + k, blocks[k], k == |blocks| - 1, framed, prefix)
    ensures CarriedByLast(longer, |events|, |Encode(framed)|)
  {
    hide Linked, Encode, ByteTotal, LastPrefix;
    longer := events;
    for k := 0 to |blocks|
      invariant Linked(longer) && |longer| == |events| + k && longer[..|events|] == events
      invariant ByteTotal(longer) == |Encode(prefix)| + (if k == |blocks| then |Encode(framed)| else 0)
      invariant LastPrefix(longer) == if k == |blocks| then prefix + framed else prefix
      invariant forall m :: 0 <= m < k ==>
        Retains(longer, |events| + m, blocks[m], m == |blocks| - 1, framed, prefix)
      invariant forall m :: |events| <= m < |longer| && m < |events| + |blocks| - 1 ==> longer[m].body.byteCount == 0
      invariant k == |blocks| ==> longer[|longer| - 1].body.byteCount == |Encode(framed)|
    {
      var last := k == |blocks| - 1;
      ghost var before := longer;
      var line, count, next := if last then framed else [], if last then |Encode(framed)| else 0,
                               if last then prefix + framed else prefix;
      EmitLinks(longer, TOOL_USE, None, Some(blocks[k].tool), blocks[k].path, line, count, next);
      longer := Emit(longer, TOOL_USE, None, Some(blocks[k].tool), blocks[k].path, line, count, next);
      forall m | 0 <= m < k + 1
        ensures Retains(longer, |events| + m, blocks[m], m == |blocks| - 1, framed, prefix)
      {
        if m < k {
          assert Retains(before, |events| + m, blocks[m], m == |blocks| - 1, framed, prefix);
        }
      }
    }
  }

  /** The events of one line: its own, or one for each nested block. */
  method EmitLine(events: seq<Event>, record: Record, prefix: Text, framed: Text) returns (longer: seq<Event>)
    requires Covers(events, prefix, |events|) && record.kind.Some?
    requires Encode(prefix + framed) == Encode(prefix) + Encode(framed)
    ensures Covers(longer, prefix + framed, |events| + EventCount(record))
    ensures longer[..|events|] == events
    ensures RetainsLine(longer, |events|, record, framed, prefix)
    ensures CarriedByLast(longer, |events|, |Encode(framed)|)
  {
    hide Linked, Encode, ByteTotal, LastPrefix;
    if record.blocks == [] {
      EmitLinks(events, record.kind.value, record.status, record.tool, record.path, framed, |Encode(framed)|,
                prefix + framed);
      longer := Emit(events, record.kind.value, record.status, record.tool, record.path, framed, |Encode(framed)|,
                     prefix + framed);
    } else {
      longer := EmitBlocks(events, record.blocks, prefix, framed);
    }
  }

  /** Every line of the output is the record the harness reported. */
  predicate Reported(stdout: Text, records: seq<Record>, parse: Text -> Option<Record>) {
    && |stdout| > 0 && stdout[|stdout| - 1] == NEWLINE
    && var lines := SplitLines(stdout[..|stdout| - 1]);
    && |lines| == |records|
    && forall i :: 0 <= i < |lines| ==> parse(lines[i]) == Some(records[i]) && records[i].kind.Some?
  }

  method EmitLines(lines: seq<Text>, records: seq<Record>, parse: Text -> Option<Record>)
    returns (events: Option<seq<Event>>)
    requires |lines| == |records|
    ensures events.Some? ==> Covers(events.value, Framed(lines), TotalEvents(records))
    ensures events.Some? ==> RetainsAll(events.value, lines, records, |lines|)
    ensures events.Some? <==>
              forall i :: 0 <= i < |lines| ==> parse(lines[i]) == Some(records[i]) && records[i].kind.Some?
  {
    hide Linked, Encode, ByteTotal, LastPrefix, RetainsLine;
    var emitted: seq<Event> := [];
    var prefix: Text := [];
    NothingYet();
    for n := 0 to |lines|
      invariant prefix == Framed(lines[..n])
      invariant Covers(emitted, prefix, TotalEvents(records[..n])) && RetainsAll(emitted, lines, records, n)
      invariant forall i :: 0 <= i < n ==> parse(lines[i]) == Some(records[i]) && records[i].kind.Some?
    {
      var parsed := parse(lines[n]);
      if parsed != Some(records[n]) || records[n].kind.None? {
        return None;
      }
      var framed := lines[n] + [NEWLINE];
      EncodeFramed(lines, n);
      assert records[..n + 1][..n] == records[..n];
      ghost var before := emitted;
      emitted := EmitLine(emitted, parsed.value, prefix, framed);
      RetainsNext(before, emitted, lines, records, n);
      prefix := prefix + framed;
    }
    assert lines[..|lines|] == lines && records[..|records|] == records;
    events := Some(emitted);
  }

  /** The first `n` lines are retained one after the other. */
  ghost predicate RetainsAll(events: seq<Event>, lines: seq<Text>, records: seq<Record>, n: nat)
    requires n <= |lines| == |records|
  {
    forall i :: 0 <= i < n ==>
      RetainsLine(events, TotalEvents(records[..i]), records[i], lines[i] + [NEWLINE], Framed(lines[..i]))
  }

  lemma RetainsNext(before: seq<Event>, events: seq<Event>, lines: seq<Text>, records: seq<Record>, n: nat)
    requires n < |lines| == |records| && before <= events && RetainsAll(before, lines, records, n)
    requires RetainsLine(events, TotalEvents(records[..n]), records[n], lines[n] + [NEWLINE], Framed(lines[..n]))
    ensures RetainsAll(events, lines, records, n + 1)
  {
    hide RetainsLine, Framed, TotalEvents;
    forall i | 0 <= i < n
      ensures RetainsLine(events, TotalEvents(records[..i]), records[i], lines[i] + [NEWLINE], Framed(lines[..i]))
    {
      RetainsGrows(before, events, TotalEvents(records[..i]), records[i], lines[i] + [NEWLINE], Framed(lines[..i]));
    }
  }

  lemma NothingYet()
    ensures Covers([], [], 0)
  {
  }

  /** Builds the chain exactly of the outputs that report these events line by line and stay within the bounds:
    * a chain that its own checker accepts, that accounts for every byte once and ends in the whole output. */
  method CreateWriterEventChain(stdout: Text, parsedEvents: seq<Record>, parse: Text -> Option<Record>)
    returns (chain: Option<Chain>)
    ensures chain.Some? <==>
              && (parsedEvents == [] || Reported(stdout, parsedEvents, parse))
              && |Encode(stdout)| <= MAX_STDOUT_BYTES && TotalEvents(parsedEvents) <= MAX_EVENTS
    ensures chain.Some? ==>
              && WellFormedChain(chain.value)
              && chain.value.stdoutDigest == stdout && chain.value.stdoutBytes == |Encode(stdout)|
              && |chain.value.events| == TotalEvents(parsedEvents)
    ensures chain.Some? && parsedEvents != [] ==>
              ByteTotal(chain.value.events) == |Encode(stdout)| && LastPrefix(chain.value.events) == stdout
              && Reported(stdout, parsedEvents, parse)
    ensures chain.Some? && parsedEvents != [] ==>
              RetainsAll(chain.value.events, SplitLines(stdout[..|stdout| - 1]), parsedEvents, |parsedEvents|)
  {
    hide Encode, RetainsAll, TotalEvents, Framed, SplitLines, ByteTotal, LastPrefix, Linked;
    if parsedEvents == [] {
      if |Encode(stdout)| > MAX_STDOUT_BYTES {
        return None;
      }
      EmptyOutput(stdout);
      return Some(Chain(|Encode(stdout)|, stdout, []));
    }
    if |stdout| == 0 || stdout[|stdout| - 1] != NEWLINE {
      return None;
    }
    var text := stdout[..|stdout| - 1];
    var lines := SplitLines(text);
    if |lines| != |parsedEvents| {
      return None;
    }
    var events := EmitLines(lines, parsedEvents, parse);
    if events.None? {
      return None;
    }
    FramingRestores(text);
    assert text + [NEWLINE] == stdout;
    SomethingEmitted(parsedEvents);
    if |Encode(stdout)| > MAX_STDOUT_BYTES || |events.value| > MAX_EVENTS {
      return None;
    }
    chain := Some(Chain(|Encode(stdout)|, stdout, events.value));
  }

  lemma EmptyOutput(stdout: Text)
    requires |Encode(stdout)| <= MAX_STDOUT_BYTES
    ensures WellFormedChain(Chain(|Encode(stdout)|, stdout, [])) && TotalEvents([]) == 0
  {
  }

  lemma SomethingEmitted(records: seq<Record>)
    requires records != []
    ensures TotalEvents(records) > 0
  {
  }

  // ---------- What a checked chain says ----------

  /** Two checked chains over the same events speak of the same output. */
  lemma ChainDeterminesOutput(a: Chain, b: Chain)
    requires WellFormedChain(a) && WellFormedChain(b) && a.events == b.events && a.events != []
    ensures a == b
  {
  }
}
