/** Reconnecting with Last-Event-ID: replay on the server, resumption and merging on the client. */
module EventResume {
  import opened Wrappers
  import opened Numerals
  import opened EventBus
  import opened EventStream

  /** JSON text: one line, starting with a brace, and read back as the same event. */
  ghost predicate IsCodec(encode: Event -> string, decode: string -> Option<Event>) {
    forall e :: GoodPayload(encode(e)) && decode(encode(e)) == Some(e)
  }

  /** A run's log: sequences are not negative and strictly increase. */
  predicate IsLog(log: seq<Event>) {
    && (forall i :: 0 <= i < |log| ==> log[i].sequence >= 0)
    && (forall i, j :: 0 <= i < j < |log| ==> log[i].sequence < log[j].sequence)
  }

  function Encoded(encode: Event -> string, events: seq<Event>): (r: seq<string>)
    ensures |r| == |events|
  {
    seq(|events|, i requires 0 <= i < |events| => encode(events[i]))
  }

  // ---- The server ----

  /** Number(header), or -1 when there is no usable header. */
  function ReplayFrom(header: string): int {
    match Parse(header)
    case None => -1
    case Some(n) => n
  }

  function After(log: seq<Event>, after: int): (r: seq<Event>)
    ensures forall e :: e in r ==> e in log && e.sequence > after
  {
    if log == [] then []
    else
      var last := log[|log| - 1];
      After(log[..|log| - 1], after) + if last.sequence > after then [last] else []
  }

  lemma {:induction false} TextAppend(a: seq<Item>, b: seq<Item>)
    ensures Text(a + b) == Text(a) + Text(b)
  {
    if a == [] {
      assert a + b == b;
    } else {
      assert (a + b)[1..] == a[1..] + b;
      TextAppend(a[1..], b);
    }
  }

  lemma TextSnoc(items: seq<Item>, item: Item)
    ensures Text(items + [item]) == Text(items) + (Block(item) + "\n\n")
  {
    TextAppend(items, [item]);
    assert [item][1..] == [];
    assert Block(item) + "\n\n" + "" == Block(item) + "\n\n";
  }

  /** The three writes of one frame make up its block and the blank line after it. */
  lemma FrameText(written: string, sequence: nat, payload: string)
    ensures written + "id: " + Decimal(sequence) + "\n" + "event: processing\n" + "data: " + payload + "\n\n"
         == written + (Block(Message(sequence, payload)) + "\n\n")
  {
    hide Decimal;
    var d := Decimal(sequence);
    assert "\n" + "event: processing\n" + "data: " == "\nevent: processing\ndata: ";
    assert written + "id: " + d + "\n" + "event: processing\n" + "data: "
        == written + ("id: " + d + ("\n" + "event: processing\n" + "data: "));
  }

  /** One open response: everything written to it, and the frames that text consists of. */
  class EventResponse {
    const encode: Event -> string
    var written: string
    ghost var items: seq<Item>
    ghost var sent: seq<Event>

    ghost predicate Valid()
      reads this
    {
      written == Text(items) && Serves(encode, items, sent)
    }

    constructor (encode: Event -> string)
      ensures Valid() && written == "" && sent == [] && this.encode == encode
    {
      this.encode := encode;
      written, items, sent := "", [], [];
    }

    method SendEvent(e: Event)
      requires Valid() && e.sequence >= 0
      modifies this
      ensures Valid() && sent == old(sent) + [e]
    {
      written := written + "id: " + Decimal(e.sequence) + "\n";
      written := written + "event: processing\n";
      written := written + "data: " + encode(e) + "\n\n";
      ghost var item := Message(e.sequence, encode(e));
      hide Serves, Decimal, Text;
      FrameText(old(written), e.sequence, encode(e));
      TextSnoc(items, item);
      ServesMore(encode, items, sent, e);
      items, sent := items + [item], sent + [e];
    }

    method Heartbeat()
      requires Valid()
      modifies this
      ensures Valid() && sent == old(sent)
    {
      written := written + ": keep-alive\n\n";
      TextSnoc(items, KeepAlive);
      assert ": keep-alive" + "\n\n" == ": keep-alive\n\n";
      ServesKeepAlive(encode, items, sent);
      items := items + [KeepAlive];
    }

    /** The events of the snapshot the client has not seen, in order. */
    method Replay(snapshot: seq<Event>, header: string)
      requires Valid() && IsLog(snapshot)
      modifies this
      ensures Valid() && sent == old(sent) + After(snapshot, ReplayFrom(header))
    {
      hide *;
      var replayFrom := ReplayFrom(header);
      NothingAfter(snapshot[..0], replayFrom);
      for i := 0 to |snapshot|
        invariant Valid() && sent == old(sent) + After(snapshot[..i], replayFrom)
      {
        assert snapshot[..i + 1][..i] == snapshot[..i];
        AfterSnoc(snapshot[..i + 1], replayFrom);
        LogPrefix(snapshot, i);
        if snapshot[i].sequence > replayFrom {
          SendEvent(snapshot[i]);
        }
      }
      assert snapshot[..|snapshot|] == snapshot;
    }

    /** The whole response: the replay, and then live events and heartbeats as they come. */
    method Respond(snapshot: seq<Event>, header: string, live: seq<Option<Event>>)
      requires Valid() && IsLog(snapshot + LiveEvents(live))
      modifies this
      ensures Valid() && sent == old(sent) + After(snapshot, ReplayFrom(header)) + LiveEvents(live)
    {
      hide *;
      LogParts(snapshot, LiveEvents(live));
      Replay(snapshot, header);
      NoLiveEvents(live);
      ghost var replayed := sent;
      for i := 0 to |live|
        invariant Valid() && sent == replayed + LiveEvents(live[..i])
      {
        LiveEventsStep(live, i);
        match live[i]
        case Some(e) => SendEvent(e);
        case None => Heartbeat();
      }
      assert live[..|live|] == live;
    }
  }

  lemma NoLiveEvents(live: seq<Option<Event>>)
    ensures LiveEvents(live[..0]) == []
  {
  }

  lemma LiveEventsStep(live: seq<Option<Event>>, i: nat)
    requires i < |live|
    ensures LiveEvents(live[..i + 1]) == LiveEvents(live[..i]) + if live[i].Some? then [live[i].value] else []
    ensures live[i].Some? ==> live[i].value in LiveEvents(live)
  {
    assert live[..i + 1][..i] == live[..i];
    if live[i].Some? {
      LiveEventIsInLog(live, i);
    }
  }

  lemma {:induction false} LiveEventIsInLog(live: seq<Option<Event>>, i: nat)
    requires i < |live| && live[i].Some?
    ensures live[i].value in LiveEvents(live)
  {
    if i < |live| - 1 {
      LiveEventIsInLog(live[..|live| - 1], i);
    }
  }

  /** What happens on an open response after the replay: a live event, or the heartbeat timer. */
  function LiveEvents(live: seq<Option<Event>>): seq<Event> {
    if live == [] then []
    else
      LiveEvents(live[..|live| - 1]) + if live[|live| - 1].Some? then [live[|live| - 1].value] else []
  }

  lemma {:induction false} AfterAppend(a: seq<Event>, b: seq<Event>, after: int)
    ensures After(a + b, after) == After(a, after) + After(b, after)
    decreases |b|
  {
    if b == [] {
      assert a + b == a;
    } else {
      assert (a + b)[..|a + b| - 1] == a + b[..|b| - 1];
      AfterAppend(a, b[..|b| - 1], after);
    }
  }

  lemma {:induction false} EverythingAfter(log: seq<Event>, after: int)
    requires forall i :: 0 <= i < |log| ==> log[i].sequence > after
    ensures After(log, after) == log
  {
    hide *;
    if log == [] {
      NothingAfter(log, after);
    } else {
      EverythingAfter(log[..|log| - 1], after);
      AfterSnoc(log, after);
      assert log == log[..|log| - 1] + [log[|log| - 1]];
    }
  }

  /**
   * Live events are sent without comparing them to the header. The response is the rest of the whole log exactly
   * when the client is not ahead of the snapshot it was opened with.
   */
  lemma {:induction false} LiveContinuesTheReplayIff(snapshot: seq<Event>, live: seq<Event>, after: int)
    requires IsLog(snapshot + live)
    ensures After(snapshot, after) + live == After(snapshot + live, after) <==> (live == [] || after < live[0].sequence)
  {
    AfterAppend(snapshot, live, after);
    SameTail(After(snapshot, after), live, After(live, after));
    if live != [] && after < live[0].sequence {
      forall i | 0 <= i < |live| ensures live[i].sequence > after {
        assert (snapshot + live)[|snapshot| + i] == live[i] && (snapshot + live)[|snapshot|] == live[0];
      }
      EverythingAfter(live, after);
    }
    if live != [] && After(live, after) == live {
      assert live[0] in After(live, after);
    }
  }

  lemma SameTail(a: seq<Event>, b: seq<Event>, c: seq<Event>)
    ensures a + b == a + c <==> b == c
  {
    assert b == (a + b)[|a|..] && c == (a + c)[|a|..];
  }

  lemma LogParts(a: seq<Event>, b: seq<Event>)
    requires IsLog(a + b)
    ensures IsLog(a) && forall e :: e in b ==> e.sequence >= 0
  {
    assert forall i :: 0 <= i < |a| ==> a[i] == (a + b)[i];
    assert forall i :: 0 <= i < |b| ==> b[i] == (a + b)[|a| + i];
  }

  /** A client that holds k events of the snapshot is served the rest of the log, replayed and then live. */
  lemma {:induction false} ResponseServesTheRest(
    encode: Event -> string, c: Client, snapshot: seq<Event>, live: seq<Event>, k: nat)
    requires At(encode, c, snapshot, k) && IsLog(snapshot + live)
    ensures After(snapshot, ReplayFrom(c.lastId)) + live == After(snapshot + live, ReplayFrom(c.lastId))
    ensures After(snapshot + live, ReplayFrom(c.lastId)) == (snapshot + live)[k..]
  {
    hide Decimal, After, IsLog, Encoded, LastId, ReplayFrom;
    assert (snapshot + live)[..k] == snapshot[..k];
    ResumesAfter(encode, c, snapshot + live, k);
    LogParts(snapshot, live);
    ResumesAfter(encode, c, snapshot, k);
    assert (snapshot + live)[k..] == snapshot[k..] + live;
  }

  /** The frames carry exactly these events, in order, with keep-alives anywhere between them. */
  ghost predicate Serves(encode: Event -> string, items: seq<Item>, sent: seq<Event>)
    decreases |items|
  {
    if items == [] then sent == []
    else
      var init, last := items[..|items| - 1], items[|items| - 1];
      match last
      case KeepAlive => Serves(encode, init, sent)
      case Message(sequence, payload) =>
        && sent != []
        && sent[|sent| - 1].sequence == sequence
        && encode(sent[|sent| - 1]) == payload
        && Serves(encode, init, sent[..|sent| - 1])
  }

  lemma ServesMore(encode: Event -> string, items: seq<Item>, sent: seq<Event>, e: Event)
    requires Serves(encode, items, sent) && e.sequence >= 0
    ensures Serves(encode, items + [Message(e.sequence, encode(e))], sent + [e])
  {
    assert (items + [Message(e.sequence, encode(e))])[..|items|] == items;
    assert (sent + [e])[..|sent|] == sent;
  }

  lemma ServesKeepAlive(encode: Event -> string, items: seq<Item>, sent: seq<Event>)
    requires Serves(encode, items, sent)
    ensures Serves(encode, items + [KeepAlive], sent)
  {
    assert (items + [KeepAlive])[..|items|] == items;
  }

  // ---- The client ----

  function Finish(c: Client): Client {
    var (blocks, rest) := Blocks(c.buffer);
    InterpretAll(c, blocks).(buffer := rest)
  }

  lemma FinishStep(c: Client, i: nat)
    requires Boundary(c.buffer) == Some(i)
    ensures Finish(c) == Finish(Interpret(c, c.buffer[..i]).(buffer := c.buffer[i + 2..]))
  {
    hide Boundary, Interpret, Blocks;
    BlocksStep(c.buffer, i);
    var block, rest := c.buffer[..i], c.buffer[i + 2..];
    var more := Blocks(rest).0;
    InterpretInTurn(c, [block], more);
    assert [block][..0] == [];
    assert InterpretAll(c, [block]) == Interpret(c, block);
    BufferIsSeparate(Interpret(c, block), more, rest);
  }

  class StreamClient {
    var buffer: string
    var lastId: string
    var received: seq<string>

    ghost function View(): Client
      reads this
    {
      Client(buffer, lastId, received)
    }

    constructor ()
      ensures View() == Client("", "", [])
    {
      buffer, lastId, received := "", "", [];
    }

    /** A new connection starts with an empty buffer and keeps the last id. */
    method Connect()
      modifies this
      ensures View() == old(View()).(buffer := "")
    {
      buffer := "";
    }

    method Receive(chunk: string)
      modifies this
      ensures View() == Feed(old(View()), chunk)
    {
      hide Boundary, Blocks, Normalised, Feed, Interpret, Finish;
      buffer := Normalised(buffer + chunk);
      ghost var target := Finish(View());
      FeedIsFinish(old(View()), chunk);
      BufferIsSeparate(old(View()), Blocks(buffer).0, buffer);
      while Boundary(buffer).Some?
        invariant Finish(View()) == target
        decreases |buffer|
      {
        var boundary := Boundary(buffer).value;
        FinishStep(View(), boundary);
        BlocksStep(buffer, boundary);
        var block := buffer[..boundary];
        InterpretKeepsBuffer(View(), block);
        buffer := buffer[boundary + 2..];
        Dispatch(block);
      }
      FinishNothing(View());
    }

    method Dispatch(block: string)
      modifies this
      ensures View() == Interpret(old(View()), block)
    {
      var lines := EventStream.Lines(block);
      var id := IdOf(lines);
      if id != "" {
        lastId := id;
      }
      var data := Joined(DataLines(lines));
      if data != "" {
        received := received + [data];
      }
    }
  }

  lemma FeedIsFinish(c: Client, chunk: string)
    ensures Feed(c, chunk) == Finish(c.(buffer := Normalised(c.buffer + chunk)))
  {
    var buffer := Normalised(c.buffer + chunk);
    BufferIsSeparate(c, Blocks(buffer).0, buffer);
  }

  lemma FinishNothing(c: Client)
    requires Boundary(c.buffer) == None
    ensures Finish(c) == c
  {
    BlocksNone(c.buffer);
  }

  lemma InterpretKeepsBuffer(c: Client, block: string)
    ensures forall b :: Interpret(c.(buffer := b), block) == Interpret(c, block).(buffer := b)
  {
  }

  // ---- Sessions of several connections ----

  /** One connection: the log when it closed, the frames served, and how much of their text arrived, in chunks. */
  datatype Connection = Connection(log: seq<Event>, items: seq<Item>, cut: nat, chunks: seq<string>)

  function ClientAfter(connections: seq<Connection>): Client {
    if connections == [] then Client("", "", [])
    else
      var last := |connections| - 1;
      FeedAll(ClientAfter(connections[..last]).(buffer := ""), connections[last].chunks)
  }

  /** The connection serves what lies after the client's last id, and breaks after any byte. */
  ghost predicate Serving(encode: Event -> string, connection: Connection, lastId: string) {
    && IsLog(connection.log)
    && Serves(encode, connection.items, After(connection.log, ReplayFrom(lastId)))
    && connection.cut <= |Text(connection.items)|
    && Concat(connection.chunks) == Text(connection.items)[..connection.cut]
  }

  /** Each connection resumes where the client is; between connections the log only grows. */
  ghost predicate Session(encode: Event -> string, connections: seq<Connection>) {
    connections == [] ||
    var last := |connections| - 1;
    && Session(encode, connections[..last])
    && Serving(encode, connections[last], ClientAfter(connections[..last]).lastId)
    && (last > 0 ==> connections[last - 1].log <= connections[last].log)
  }

  /** The id a client holds after these events. */
  function LastId(events: seq<Event>): string {
    if events == [] || events[|events| - 1].sequence < 0 then "" else Decimal(events[|events| - 1].sequence)
  }

  lemma {:induction false} ServedContents(encode: Event -> string, items: seq<Item>, sent: seq<Event>)
    requires Serves(encode, items, sent)
    ensures Payloads(items) == Encoded(encode, sent) && LastSent(items, "") == LastId(sent)
    decreases |items|
  {
    hide Decimal;
    if items != [] {
      var init, last := items[..|items| - 1], items[|items| - 1];
      if last.Message? {
        var before := sent[..|sent| - 1];
        ServedContents(encode, init, before);
        assert Encoded(encode, sent) == Encoded(encode, before) + [last.payload];
      } else {
        ServedContents(encode, init, sent);
        assert Payloads(init) + [] == Payloads(init);
      }
    }
  }

  lemma {:induction false} ServedItemsAreGood(encode: Event -> string, items: seq<Item>, sent: seq<Event>)
    requires Serves(encode, items, sent) && forall e :: GoodPayload(encode(e))
    ensures GoodItems(items)
    decreases |items|
  {
    if items != [] {
      var init, last := items[..|items| - 1], items[|items| - 1];
      ServedItemsAreGood(encode, init, if last.Message? then sent[..|sent| - 1] else sent);
      assert forall i :: 0 <= i < |init| ==> items[i] == init[i];
    }
  }

  /** The first k frames serve the first events. */
  lemma {:induction false} ServedPrefix(encode: Event -> string, items: seq<Item>, sent: seq<Event>, k: nat)
    returns (count: nat)
    requires Serves(encode, items, sent) && k <= |items|
    ensures count <= |sent| && Serves(encode, items[..k], sent[..count])
    decreases |items|
  {
    if k == |items| {
      assert items[..k] == items && sent[..|sent|] == sent;
      return |sent|;
    }
    var init, last := items[..|items| - 1], items[|items| - 1];
    var before := if last.Message? then sent[..|sent| - 1] else sent;
    count := ServedPrefix(encode, init, before, k);
    assert init[..k] == items[..k] && before[..count] == sent[..count];
  }

  lemma {:induction false} AfterIsSuffix(log: seq<Event>, k: nat, after: int)
    requires IsLog(log) && k <= |log|
    requires after == if k == 0 then -1 else log[k - 1].sequence
    ensures After(log, after) == log[k..]
    decreases |log|
  {
    hide After;
    if |log| == k {
      AllUpToLast(log);
      NothingAfter(log, after);
      assert log[k..] == [];
    } else {
      var init, last := log[..|log| - 1], log[|log| - 1];
      LogPrefix(log, |log| - 1);
      AfterIsSuffix(init, k, after);
      hide IsLog;
      AfterSnoc(log, after);
      assert log[k..] == init[k..] + [last];
    }
  }

  lemma AllUpToLast(log: seq<Event>)
    requires IsLog(log)
    ensures forall e :: e in log ==> e.sequence <= log[|log| - 1].sequence
  {
  }

  lemma LogPrefix(log: seq<Event>, n: nat)
    requires IsLog(log) && n < |log|
    ensures IsLog(log[..n]) && log[n].sequence >= 0
    ensures forall i :: 0 <= i < n ==> log[i].sequence < log[n].sequence
  {
  }

  lemma AfterSnoc(log: seq<Event>, after: int)
    requires log != []
    ensures After(log, after)
         == After(log[..|log| - 1], after) + if log[|log| - 1].sequence > after then [log[|log| - 1]] else []
  {
  }

  lemma {:induction false} NothingAfter(log: seq<Event>, after: int)
    requires forall e :: e in log ==> e.sequence <= after
    ensures After(log, after) == []
  {
    if log != [] {
      assert log[|log| - 1] in log;
      NothingAfter(log[..|log| - 1], after);
    }
  }

  lemma {:induction false} LastSentFrom(items: seq<Item>, before: string)
    ensures LastSent(items, before) == if Payloads(items) == [] then before else LastSent(items, "")
  {
    hide Decimal;
    if items != [] {
      LastSentFrom(items[..|items| - 1], before);
    }
  }

  /** What the client has received and remembers is the first k events of the log. */
  ghost predicate At(encode: Event -> string, c: Client, log: seq<Event>, k: nat) {
    k <= |log| && c.received == Encoded(encode, log[..k]) && c.lastId == LastId(log[..k])
  }

  lemma {:induction false} ResumesAfter(encode: Event -> string, c: Client, log: seq<Event>, k: nat)
    requires At(encode, c, log, k) && IsLog(log)
    ensures After(log, ReplayFrom(c.lastId)) == log[k..]
  {
    hide After, Decimal;
    if k > 0 {
      assert log[..k][|log[..k]| - 1] == log[k - 1];
      ParseOfDecimal(log[k - 1].sequence);
    }
    AfterIsSuffix(log, k, ReplayFrom(c.lastId));
  }

  /**
   * Resuming loses and repeats nothing. Over any series of connections, each cut after any byte and read in any
   * chunks, what the client has received is a gap-free, duplicate-free prefix of the log, and its last id is
   * that prefix's last sequence.
   */
  lemma {:induction false} ResumeIsAPrefix(
    encode: Event -> string, decode: string -> Option<Event>, connections: seq<Connection>) returns (k: nat)
    requires IsCodec(encode, decode) && connections != [] && Session(encode, connections)
    ensures At(encode, ClientAfter(connections), connections[|connections| - 1].log, k)
    ensures var received := ClientAfter(connections).received;
            |received| == k && forall i :: 0 <= i < k ==> decode(received[i]) == Some(connections[|connections| - 1].log[i])
    decreases |connections|
  {
    hide FeedAll, Text, Concat, Serves, After;
    var last := |connections| - 1;
    var init, now := connections[..last], connections[last];
    var before := ClientAfter(init);
    var start := 0;
    if last > 0 {
      start := ResumeIsAPrefix(encode, decode, init);
      assert init[last - 1].log[..start] == now.log[..start];
    } else {
      assert now.log[..0] == [];
    }
    assert At(encode, before, now.log, start);
    k := OneConnection(encode, now, before, start);
  }

  lemma OneConnection(encode: Event -> string, now: Connection, before: Client, start: nat) returns (k: nat)
    requires Serving(encode, now, before.lastId) && At(encode, before, now.log, start)
    requires forall e :: GoodPayload(encode(e))
    ensures start <= k && At(encode, FeedAll(before.(buffer := ""), now.chunks), now.log, k)
  {
    hide FeedAll, Text, Concat, Serves, After, LastSent, Payloads, LastId, GoodItems;
    var items, sent := now.items, now.log[start..];
    ResumesAfter(encode, before, now.log, start);
    ServedItemsAreGood(encode, items, sent);
    var whole := RoundTrip(before.(buffer := ""), items, now.cut, now.chunks);
    var count := ServedPrefix(encode, items, sent, whole);
    ServedContents(encode, items[..whole], sent[..count]);
    LastSentFrom(items[..whole], before.lastId);
    k := start + count;
    assert now.log[..k] == now.log[..start] + sent[..count];
    assert Encoded(encode, now.log[..k]) == Encoded(encode, now.log[..start]) + Encoded(encode, sent[..count]);
    LastIdOfMore(now.log[..start], sent[..count]);
  }

  lemma LastIdOfMore(a: seq<Event>, b: seq<Event>)
    ensures LastId(a + b) == if b == [] then LastId(a) else LastId(b)
  {
    if b == [] {
      assert a + b == a;
    }
  }
}
