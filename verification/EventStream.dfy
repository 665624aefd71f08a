/**
 * The event stream's wire format, section 9.2 of the WHATWG HTML Living Standard as the server prints it and
 * the client reads it: frames out, arbitrary chunks in.
 */
module EventStream {
  import opened Wrappers
  import opened Numerals
  import opened Whitespace

  // ---- What the server writes ----

  datatype Item =
    | Message(sequence: nat, payload: string)
    | KeepAlive

  /** The lines of one frame, without the blank line that ends it. */
  function Block(item: Item): string {
    match item
    case Message(sequence, payload) => "id: " + Decimal(sequence) + "\nevent: processing\ndata: " + payload
    case KeepAlive => ": keep-alive"
  }

  function Text(items: seq<Item>): string {
    if items == [] then "" else Block(items[0]) + "\n\n" + Text(items[1..])
  }

  // ---- What the client does with the text ----

  /** buffer.replace(/\r\n/g, "\n"): one pass, left to right. */
  function Normalised(s: string): (r: string)
    ensures |r| <= |s|
  {
    if |s| < 2 then s
    else if s[0] == '\r' && s[1] == '\n' then ['\n'] + Normalised(s[2..])
    else [s[0]] + Normalised(s[1..])
  }

  /** The index of the first blank line, as indexOf finds it. */
  function Boundary(s: string): (r: Option<nat>)
    ensures r.Some? ==> r.value + 2 <= |s| && s[r.value] == s[r.value + 1] == '\n'
  {
    if |s| < 2 then None
    else if s[0] == s[1] == '\n' then Some(0)
    else
      match Boundary(s[1..])
      case None => None
      case Some(i) => Some(i + 1)
  }

  /** The complete blocks of a text and what is left over. */
  function Blocks(s: string): (seq<string>, string)
    decreases |s|
  {
    match Boundary(s)
    case None => ([], s)
    case Some(i) =>
      var (blocks, rest) := Blocks(s[i + 2..]);
      ([s[..i]] + blocks, rest)
  }

  function Lines(s: string): (lines: seq<string>)
    ensures lines != []
  {
    if s == "" then [""]
    else
      var rest := Lines(s[1..]);
      if s[0] == '\n' then [""] + rest else [[s[0]] + rest[0]] + rest[1..]
  }

  predicate StartsWith(s: string, prefix: string) {
    prefix <= s
  }

  /** The first `id:` line, trimmed; empty when there is none. */
  function IdOf(lines: seq<string>): string {
    if lines == [] then ""
    else if StartsWith(lines[0], "id:") then Trim(lines[0][3..])
    else IdOf(lines[1..])
  }

  function DataLines(lines: seq<string>): seq<string> {
    if lines == [] then []
    else if StartsWith(lines[0], "data:") then [TrimStart(lines[0][5..])] + DataLines(lines[1..])
    else DataLines(lines[1..])
  }

  function Joined(parts: seq<string>): string {
    if parts == [] then "" else if |parts| == 1 then parts[0] else parts[0] + "\n" + Joined(parts[1..])
  }

  /** What the client has: the unread text, the last id, and the data it has passed on. */
  datatype Client = Client(buffer: string, lastId: string, received: seq<string>)

  function Interpret(c: Client, block: string): Client {
    var lines := Lines(block);
    var id, data := IdOf(lines), Joined(DataLines(lines));
    c.(lastId := if id != "" then id else c.lastId,
       received := if data != "" then c.received + [data] else c.received)
  }

  function InterpretAll(c: Client, blocks: seq<string>): Client {
    if blocks == [] then c else Interpret(InterpretAll(c, blocks[..|blocks| - 1]), blocks[|blocks| - 1])
  }

  /** One chunk: appended, normalised, and every complete block interpreted. */
  function Feed(c: Client, chunk: string): Client {
    var (blocks, rest) := Blocks(Normalised(c.buffer + chunk));
    InterpretAll(c, blocks).(buffer := rest)
  }

  function FeedAll(c: Client, chunks: seq<string>): Client {
    if chunks == [] then c else Feed(FeedAll(c, chunks[..|chunks| - 1]), chunks[|chunks| - 1])
  }

  function Concat(chunks: seq<string>): string {
    if chunks == [] then "" else Concat(chunks[..|chunks| - 1]) + chunks[|chunks| - 1]
  }

  // ---- Cutting the text into chunks ----

  /** CR CR LF, the one sequence whose pass leaves a CR LF that a later pass would rewrite again. */
  predicate IsCRCRLF(s: string, i: nat) {
    i + 2 < |s| && s[i] == '\r' && s[i + 1] == '\r' && s[i + 2] == '\n'
  }

  predicate NoCRCRLF(s: string) {
    forall i :: 0 <= i < |s| ==> !IsCRCRLF(s, i)
  }

  predicate StartsCRLF(s: string) {
    |s| >= 2 && s[0] == '\r' && s[1] == '\n'
  }

  lemma NormalisedStep(c: char, t: string)
    requires t != ""
    ensures Normalised([c] + t)
         == if c == '\r' && t[0] == '\n' then ['\n'] + Normalised(t[1..]) else [c] + Normalised(t)
  {
    assert ([c] + t)[1..] == t && ([c] + t)[2..] == t[1..];
  }

  lemma CutAfterCRLF(t: string, b: string)
    requires Normalised(Normalised(t) + b) == Normalised(t + b)
    ensures Normalised(Normalised("\r\n" + t) + b) == Normalised("\r\n" + t + b)
  {
    hide Normalised;
    NormalisedStep('\r', "\n" + t);
    NormalisedStep('\r', "\n" + (t + b));
    assert "\r\n" + t == ['\r'] + ("\n" + t) && "\r\n" + t + b == ['\r'] + ("\n" + (t + b));
    assert ("\n" + t)[1..] == t && ("\n" + (t + b))[1..] == t + b;
    NormalisedLineFeed(Normalised(t), b);
  }

  lemma StepThrough(c: char, t: string, b: string)
    requires t != "" && (c == '\r' ==> t[0] != '\n')
    ensures Normalised([c] + t + b) == [c] + Normalised(t + b)
  {
    hide *;
    assert (t + b)[0] == t[0];
    NormalisedStep(c, t + b);
    assert [c] + t + b == [c] + (t + b);
  }

  lemma CutAfterChar(c: char, t: string, b: string)
    requires t != "" && (c == '\r' ==> t[0] != '\n' && !StartsCRLF(t))
    requires Normalised(Normalised(t) + b) == Normalised(t + b)
    ensures Normalised(Normalised([c] + t) + b) == Normalised([c] + t + b)
  {
    hide *;
    NormalisedHead(t);
    NormalisedStep(c, t);
    StepThrough(c, t, b);
    StepThrough(c, Normalised(t), b);
  }

  /** Without CR CR LF, normalising what has arrived so far never changes how the whole is normalised. */
  lemma {:induction false} NormalisedCut(a: string, b: string)
    requires NoCRCRLF(a + b)
    ensures Normalised(Normalised(a) + b) == Normalised(a + b)
    decreases |a|
  {
    hide Normalised;
    if |a| < 2 {
      NormalisedShort(a);
    } else {
      var c, t := a[0], a[1..];
      assert a == [c] + t && a + b == [c] + (t + b);
      NoCRCRLFTail(c, t + b);
      NormalisedCut(t, b);
      if c == '\r' && t[0] == '\n' {
        var u := t[1..];
        assert t == ['\n'] + u && a == "\r\n" + u && t + b == ['\n'] + (u + b);
        NoCRCRLFTail('\n', u + b);
        NormalisedCut(u, b);
        CutAfterCRLF(u, b);
      } else {
        HeadIsNotCRCRLF(c, t, b);
        CutAfterChar(c, t, b);
      }
    }
  }

  lemma NoCRCRLFTail(c: char, t: string)
    requires NoCRCRLF([c] + t)
    ensures NoCRCRLF(t)
  {
    forall i | 0 <= i < |t| ensures !IsCRCRLF(t, i) {
      assert !IsCRCRLF([c] + t, i + 1);
    }
  }

  lemma HeadIsNotCRCRLF(c: char, t: string, b: string)
    requires NoCRCRLF([c] + (t + b))
    ensures c == '\r' ==> !StartsCRLF(t)
  {
    assert !IsCRCRLF([c] + (t + b), 0);
    if StartsCRLF(t) {
      assert ([c] + (t + b))[1] == t[0] && ([c] + (t + b))[2] == t[1];
    }
  }

  lemma NormalisedLineFeed(t: string, b: string)
    ensures Normalised(['\n'] + t + b) == ['\n'] + Normalised(t + b)
  {
    assert ['\n'] + t + b == ['\n'] + (t + b);
    assert (['\n'] + (t + b))[1..] == t + b;
  }

  lemma NormalisedHead(t: string)
    requires t != ""
    ensures Normalised(t) != "" && (t[0] != '\r' ==> Normalised(t)[0] == t[0])
    ensures Normalised(t)[0] == if StartsCRLF(t) then '\n' else t[0]
  {
  }

  predicate Clean(s: string) {
    Normalised(s) == s
  }

  lemma CleanTail(c: char, t: string)
    requires Clean([c] + t)
    ensures Clean(t)
    ensures t != "" ==> c != '\r' || t[0] != '\n'
  {
    if t != "" {
      NormalisedStep(c, t);
      assert ([c] + t)[1..] == t;
    }
  }

  /** What follows a line end is normalised on its own. */
  lemma {:induction false} NormalisedAfterLine(x: string, z: string, y: string)
    requires Clean(x + z) && (x == "" || x[|x| - 1] == '\n')
    ensures Normalised(x + y) == x + Normalised(y)
    decreases |x|
  {
    hide Normalised;
    if x == "" {
      assert x + y == y;
    } else {
      var c, t := x[0], x[1..];
      assert x + z == [c] + (t + z) && x + y == [c] + (t + y);
      CleanTail(c, t + z);
      if t != "" {
        assert (t + z)[0] == t[0];
      }
      NormalisedAfterLine(t, z, y);
      if t + y != "" {
        NormalisedStep(c, t + y);
      } else {
        NormalisedShort(x);
        NormalisedShort(y);
        assert x + y == x;
      }
    }
  }

  lemma NormalisedShort(s: string)
    requires |s| < 2
    ensures Normalised(s) == s
  {
  }

  lemma {:induction false} SameBoundary(s: string, t: string, i: nat)
    requires Boundary(s) == Some(i) && i + 2 <= |t| && t[..i + 2] == s[..i + 2]
    ensures Boundary(t) == Some(i)
  {
    assert t[0] == t[..i + 2][0] && t[1] == t[..i + 2][1];
    if i > 0 {
      assert t[1..][..i + 1] == t[..i + 2][1..] && s[1..][..i + 1] == s[..i + 2][1..];
      SameBoundary(s[1..], t[1..], i - 1);
    }
  }

  /** What is left over is a suffix that begins after a line end, or everything. */
  lemma {:induction false} BlocksRest(s: string)
    ensures var rest := Blocks(s).1;
            && |rest| <= |s| && s[|s| - |rest|..] == rest
            && (|rest| == |s| || s[|s| - |rest| - 1] == '\n')
    decreases |s|
  {
    match Boundary(s)
    case None =>
    case Some(i) =>
      BlocksStep(s, i);
      hide Blocks, Boundary;
      BlocksRest(s[i + 2..]);
  }

  lemma BlocksStep(s: string, i: nat)
    requires Boundary(s) == Some(i)
    ensures i + 2 <= |s|
    ensures Blocks(s) == ([s[..i]] + Blocks(s[i + 2..]).0, Blocks(s[i + 2..]).1)
  {
    hide Boundary;
  }

  lemma BlocksNone(s: string)
    requires Boundary(s) == None
    ensures Blocks(s) == ([], s)
  {
    hide Boundary;
  }

  /** Complete blocks stay what they are whatever text follows them. */
  lemma {:induction false} BlocksThen(x: string, z: string, w: string)
    requires Blocks(x + z).1 == z
    ensures Blocks(x + w) == (Blocks(x + z).0 + Blocks(w).0, Blocks(w).1)
    decreases |x|
  {
    hide Boundary, Blocks;
    var s := x + z;
    match Boundary(s)
    case None =>
      BlocksNone(s);
      assert x == "" && x + w == w;
      assert [] + Blocks(w).0 == Blocks(w).0;
    case Some(i) =>
      BlocksStep(s, i);
      BlocksRest(s[i + 2..]);
      var t := x[i + 2..];
      assert s[i + 2..] == t + z && (x + w)[i + 2..] == t + w;
      assert (x + w)[..i + 2] == s[..i + 2] && (x + w)[..i] == s[..i];
      SameBoundary(s, x + w, i);
      BlocksStep(x + w, i);
      BlocksThen(t, z, w);
      assert [s[..i]] + (Blocks(t + z).0 + Blocks(w).0) == [s[..i]] + Blocks(t + z).0 + Blocks(w).0;
  }

  lemma {:induction false} InterpretInTurn(c: Client, a: seq<string>, b: seq<string>)
    ensures InterpretAll(c, a + b) == InterpretAll(InterpretAll(c, a), b)
  {
    if b == [] {
      assert a + b == a;
    } else {
      var last := |b| - 1;
      InterpretInTurn(c, a, b[..last]);
      assert (a + b)[..|a + b| - 1] == a + b[..last];
    }
  }

  lemma {:induction false} BufferIsSeparate(c: Client, blocks: seq<string>, buffer: string)
    ensures InterpretAll(c.(buffer := buffer), blocks) == InterpretAll(c, blocks).(buffer := buffer)
    ensures InterpretAll(c, blocks).buffer == c.buffer
  {
    if blocks != [] {
      BufferIsSeparate(c, blocks[..|blocks| - 1], buffer);
    }
  }

  /** The client's state is a function of the text received, however it was cut into chunks. */
  lemma {:induction false} ChunksDoNotMatter(c: Client, chunks: seq<string>)
    requires c.buffer == "" && NoCRCRLF(Concat(chunks))
    ensures var (blocks, rest) := Blocks(Normalised(Concat(chunks)));
            FeedAll(c, chunks) == InterpretAll(c, blocks).(buffer := rest)
  {
    if chunks == [] {
      assert c == c.(buffer := "");
    } else {
      var init, chunk := chunks[..|chunks| - 1], chunks[|chunks| - 1];
      var text := Concat(init);
      assert NoCRCRLF(text) by {
        assert forall i :: 0 <= i < |text| && IsCRCRLF(text, i) ==> IsCRCRLF(text + chunk, i);
      }
      ChunksDoNotMatter(c, init);
      OneMoreChunk(c, text, chunk);
    }
  }

  lemma OneMoreChunk(c: Client, text: string, chunk: string)
    requires NoCRCRLF(text + chunk) && NoCRCRLF(text)
    ensures var (blocks, rest) := Blocks(Normalised(text));
            var (blocks', rest') := Blocks(Normalised(text + chunk));
            Feed(InterpretAll(c, blocks).(buffer := rest), chunk) == InterpretAll(c, blocks').(buffer := rest')
  {
    hide Blocks, Normalised, InterpretAll, NoCRCRLF;
    var clean := Normalised(text);
    var (blocks, rest) := Blocks(clean);
    BlocksRest(clean);
    assert text + "" == text && clean + "" == clean;
    var x := clean[..|clean| - |rest|];
    assert clean == x + rest;
    NormalisedCut(text, "");
    NormalisedCut(text, chunk);
    assert clean + chunk == x + (rest + chunk);
    NormalisedAfterLine(x, rest, rest + chunk);
    var more := Normalised(rest + chunk);
    BlocksThen(x, rest, more);
    InterpretInTurn(c, blocks, Blocks(more).0);
    BufferIsSeparate(InterpretAll(c, blocks), Blocks(more).0, rest);
  }

  // ---- Exactly which texts may be cut anywhere ----

  /** The text as the client normalises it when it arrives in these chunks: each time all of it so far. */
  function NormalisedInChunks(chunks: seq<string>): string {
    if chunks == [] then ""
    else Normalised(NormalisedInChunks(chunks[..|chunks| - 1]) + chunks[|chunks| - 1])
  }

  lemma {:induction false} ChunksNormaliseAlike(chunks: seq<string>)
    requires NoCRCRLF(Concat(chunks))
    ensures NormalisedInChunks(chunks) == Normalised(Concat(chunks))
  {
    if chunks != [] {
      var init, chunk := chunks[..|chunks| - 1], chunks[|chunks| - 1];
      assert NoCRCRLF(Concat(init)) by {
        assert forall i :: 0 <= i < |Concat(init)| && IsCRCRLF(Concat(init), i) ==> IsCRCRLF(Concat(chunks), i);
      }
      ChunksNormaliseAlike(init);
      NormalisedCut(Concat(init), chunk);
    }
  }

  /** A text that contains CR CR LF still contains CR LF after one pass. */
  lemma {:induction false} OnePassLeavesCRLF(s: string, i: nat)
    requires IsCRCRLF(s, i)
    ensures !Clean(Normalised(s))
    decreases |s|
  {
    var c, t := s[0], s[1..];
    assert s == [c] + t;
    NormalisedStep(c, t);
    if StartsCRLF(s) {
      var u := t[1..];
      assert IsCRCRLF(u, i - 2);
      OnePassLeavesCRLF(u, i - 2);
      NotCleanTail('\n', Normalised(u));
    } else if i == 0 {
      NormalisedHead(t);
      NotCleanCRLF(Normalised(t));
    } else {
      assert IsCRCRLF(t, i - 1);
      OnePassLeavesCRLF(t, i - 1);
      NotCleanTail(c, Normalised(t));
    }
  }

  lemma NotCleanTail(c: char, t: string)
    requires !Clean(t)
    ensures !Clean([c] + t)
  {
    if Clean([c] + t) {
      CleanTail(c, t);
    }
  }

  lemma NotCleanCRLF(t: string)
    requires t != "" && t[0] == '\n'
    ensures !Clean(['\r'] + t)
  {
    if Clean(['\r'] + t) {
      CleanTail('\r', t);
    }
  }

  /** Every way of cutting a text normalises it alike exactly when it contains no CR CR LF. */
  lemma {:induction false} CutsAgreeIff(s: string)
    ensures (forall chunks :: Concat(chunks) == s ==> NormalisedInChunks(chunks) == Normalised(s)) <==> NoCRCRLF(s)
  {
    if NoCRCRLF(s) {
      forall chunks | Concat(chunks) == s ensures NormalisedInChunks(chunks) == Normalised(s) {
        ChunksNormaliseAlike(chunks);
      }
    } else {
      var i :| 0 <= i < |s| && IsCRCRLF(s, i);
      OnePassLeavesCRLF(s, i);
      WholeThenNothing(s);
    }
  }

  lemma WholeThenNothing(s: string)
    ensures Concat([s, ""]) == s && NormalisedInChunks([s, ""]) == Normalised(Normalised(s))
  {
    assert [s, ""][..1] == [s] && [s][..0] == [];
    assert "" + s == s && s + "" == s && Normalised(s) + "" == Normalised(s);
    assert NormalisedInChunks([s]) == Normalised(NormalisedInChunks([]) + s);
    assert Concat([s]) == s && NormalisedInChunks([s]) == Normalised(s);
  }

  /** With it the cut shows in what is passed on: one chunk gives data with a CR, two give it without. */
  lemma {:induction false} CRCRLFShowsInData(c: Client)
    requires c.buffer == ""
    ensures FeedAll(c, ["data: x\r\r\n\n"]).received == c.received + ["x\r"]
    ensures FeedAll(c, ["data: x\r\r\n", "\n"]).received == c.received + ["x"]
    ensures Concat(["data: x\r\r\n", "\n"]) == Concat(["data: x\r\r\n\n"])
  {
    var cut := ["data: x\r\r\n", "\n"];
    assert cut[..1] == ["data: x\r\r\n"] && ["data: x\r\r\n"][..0] == [] && ["data: x\r\r\n\n"][..0] == [];
    assert "" + "data: x\r\r\n" == "data: x\r\r\n" && "data: x\r\r\n" + "\n" == "data: x\r\r\n\n";
    assert "" + "data: x\r\r\n\n" == "data: x\r\r\n\n";
    InOneChunk(c);
    InTwoChunks(c);
  }

  /** A text without CR LF before `tail` keeps it as it is. */
  lemma {:induction false} NormalisedPrefix(line: string, tail: string)
    requires '\r' !in line
    ensures Normalised(line + tail) == line + Normalised(tail)
  {
    if line == "" {
      assert line + tail == tail;
    } else {
      var t := line[1..];
      assert '\r' !in t && line == [line[0]] + t && line + tail == [line[0]] + (t + tail);
      NormalisedPrefix(t, tail);
      if t + tail == "" {
        assert line + tail == [line[0]];
      } else {
        NormalisedStep(line[0], t + tail);
      }
    }
  }

  lemma OneBlock(line: string, rest: string)
    requires '\n' !in line
    ensures Blocks(line + "\n\n" + rest) == ([line] + Blocks(rest).0, Blocks(rest).1)
  {
    var s := line + ("\n\n" + rest);
    assert line + "\n\n" + rest == s;
    BoundaryAtOnce(rest);
    BoundarySkipsLine(line, "\n\n" + rest);
    BlocksStep(s, |line|);
    assert s[..|line|] == line && s[|line| + 2..] == rest;
  }

  lemma DataBlock(c: Client, value: string)
    requires '\n' !in value && value != "" && !IsSpace(value[0])
    ensures Interpret(c, "data: " + value) == c.(received := c.received + [value])
  {
    var line := "data: " + value;
    LinesOfOne(line);
    TrimsOneSpace(value);
    assert line[..5] == "data:" && line[5..] == " " + value && line[0] == 'd';
    assert !StartsWith(line, "id:") && IdOf([line]) == "" && DataLines([line]) == [value];
  }

  lemma InterpretOne(c: Client, block: string)
    ensures InterpretAll(c, [block]) == Interpret(c, block)
  {
    assert [block][..0] == [];
  }

  lemma PassOverTail()
    ensures Normalised("\r\r\n\n") == "\r\n\n" && Normalised("\r\r\n") == "\r\n"
    ensures Normalised("\r\n\n") == "\n\n"
  {
    NormalisedStep('\r', "\r\n\n");
    NormalisedStep('\r', "\n\n");
    NormalisedStep('\r', "\r\n");
    NormalisedStep('\r', "\n");
    assert ['\r'] + "\r\n\n" == "\r\r\n\n" && ['\r'] + "\n\n" == "\r\n\n";
    assert ['\r'] + "\r\n" == "\r\r\n" && ['\r'] + "\n" == "\r\n";
  }

  lemma FeedOneBlock(c: Client, chunk: string, line: string)
    requires Normalised(c.buffer + chunk) == line + "\n\n" && '\n' !in line
    ensures Feed(c, chunk) == Interpret(c, line).(buffer := "")
  {
    hide Blocks, Interpret, Normalised;
    assert line + "\n\n" == line + "\n\n" + "";
    OneBlock(line, "");
    BlocksNone("");
    assert [line] + [] == [line];
    InterpretOne(c, line);
  }

  lemma InOneChunk(c: Client)
    requires c.buffer == ""
    ensures Feed(c, "data: x\r\r\n\n").received == c.received + ["x\r"]
  {
    hide Blocks, Interpret, Feed, Normalised;
    NormalisedPrefix("data: x", "\r\r\n\n");
    PassOverTail();
    assert c.buffer + "data: x\r\r\n\n" == "data: x" + "\r\r\n\n";
    assert "data: x" + "\r\n\n" == "data: x\r" + "\n\n";
    FeedOneBlock(c, "data: x\r\r\n\n", "data: x\r");
    assert "data: " + "x\r" == "data: x\r";
    DataBlock(c, "x\r");
  }

  lemma InTwoChunks(c: Client)
    requires c.buffer == ""
    ensures Feed(Feed(c, "data: x\r\r\n"), "\n").received == c.received + ["x"]
  {
    hide Blocks, Interpret, Feed, Normalised;
    HalfIsHeld(c);
    var held := c.(buffer := "data: x\r\n");
    NormalisedPrefix("data: x", "\r\n\n");
    PassOverTail();
    assert held.buffer + "\n" == "data: x" + "\r\n\n";
    FeedOneBlock(held, "\n", "data: x");
    assert "data: " + "x" == "data: x";
    DataBlock(held, "x");
  }

  lemma HalfIsHeld(c: Client)
    requires c.buffer == ""
    ensures Feed(c, "data: x\r\r\n") == c.(buffer := "data: x\r\n")
  {
    hide Blocks, Interpret, Normalised;
    NormalisedPrefix("data: x", "\r\r\n");
    PassOverTail();
    assert c.buffer + "data: x\r\r\n" == "data: x" + "\r\r\n";
    BoundarySkipsLine("data: x\r", "\n");
    assert "data: x" + "\r\n" == "data: x\r" + "\n" == "data: x\r\n" && Boundary("\n") == None;
    BlocksNone("data: x\r\n");
  }

  // ---- What the client makes of the server's text ----

  predicate OneLine(s: string) {
    '\r' !in s && '\n' !in s
  }

  /** A payload the format carries: one non-empty line that does not start with white space, as JSON text is. */
  predicate GoodPayload(s: string) {
    OneLine(s) && s != "" && !IsSpace(s[0])
  }

  predicate GoodItems(items: seq<Item>) {
    forall i :: 0 <= i < |items| && items[i].Message? ==> GoodPayload(items[i].payload)
  }

  function Payloads(items: seq<Item>): seq<string> {
    if items == [] then []
    else
      var last := items[|items| - 1];
      Payloads(items[..|items| - 1]) + if last.Message? then [last.payload] else []
  }

  /** The id of the last message, or what it was before when there is none. */
  function LastSent(items: seq<Item>, before: string): string {
    if items == [] then before
    else
      var last := items[|items| - 1];
      if last.Message? then Decimal(last.sequence) else LastSent(items[..|items| - 1], before)
  }

  lemma {:induction false} BoundarySkipsLine(line: string, rest: string)
    requires '\n' !in line
    ensures Boundary(line + rest)
         == if Boundary(rest).Some? then Some(|line| + Boundary(rest).value) else None
  {
    if line == "" {
      assert line + rest == rest;
    } else {
      assert (line + rest)[1..] == line[1..] + rest && (line + rest)[0] == line[0] != '\n';
      assert '\n' !in line[1..];
      BoundarySkipsLine(line[1..], rest);
    }
  }

  lemma BoundarySkipsBreak(rest: string)
    requires rest != "" && rest[0] != '\n'
    ensures Boundary("\n" + rest) == if Boundary(rest).Some? then Some(1 + Boundary(rest).value) else None
  {
    assert ("\n" + rest)[1..] == rest;
  }

  /** A frame ends at its first blank line. */
  lemma {:induction false} FrameBoundary(item: Item, rest: string)
    requires item.Message? ==> OneLine(item.payload)
    ensures Boundary(Block(item) + ("\n\n" + rest)) == Some(|Block(item)|)
  {
    hide Boundary, Decimal;
    BoundaryAtOnce(rest);
    match item
    case KeepAlive => BoundarySkipsLine(": keep-alive", "\n\n" + rest);
    case Message(sequence, payload) =>
      NumeralIsOneLine(sequence);
      BoundaryOfThreeLines("id: " + Decimal(sequence), "event: processing", "data: " + payload, rest);
      ThreeLines("id: " + Decimal(sequence), payload);
  }

  lemma ThreeLines(id: string, payload: string)
    ensures id + "\nevent: processing\ndata: " + payload
         == id + ("\n" + ("event: processing" + ("\n" + ("data: " + payload))))
  {
    hide *;
    assert "\nevent: processing\ndata: " == "\n" + "event: processing" + "\n" + "data: ";
  }

  lemma BoundaryOfThreeLines(a: string, b: string, c: string, rest: string)
    requires '\n' !in a && '\n' !in b && '\n' !in c && b != "" && c != ""
    ensures Boundary(a + ("\n" + (b + ("\n" + c))) + ("\n\n" + rest)) == Some(|a + ("\n" + (b + ("\n" + c)))|)
  {
    hide Boundary;
    var end := "\n\n" + rest;
    BoundaryAtOnce(rest);
    BoundarySkipsLine(c, end);
    BoundarySkipsBreak(c + end);
    BoundarySkipsLine(b, "\n" + (c + end));
    BoundarySkipsBreak(b + ("\n" + (c + end)));
    BoundarySkipsLine(a, "\n" + (b + ("\n" + (c + end))));
    assert a + ("\n" + (b + ("\n" + c))) + end == a + ("\n" + (b + ("\n" + (c + end))));
  }

  lemma BoundaryAtOnce(rest: string)
    ensures Boundary("\n\n" + rest) == Some(0)
  {
  }

  lemma NumeralIsOneLine(n: nat)
    ensures OneLine(Decimal(n))
  {
    assert forall i :: 0 <= i < |Decimal(n)| ==> IsDigit(Decimal(n)[i]);
  }

  /** The blocks of the server's text, cut anywhere, are those of the frames that arrived whole. */
  lemma {:induction false} BlocksOfText(items: seq<Item>, cut: nat) returns (whole: nat)
    requires GoodItems(items) && cut <= |Text(items)|
    ensures whole <= |items| && |Text(items[..whole])| <= cut
    ensures whole < |items| ==> cut < |Text(items[..whole + 1])|
    ensures Blocks(Text(items)[..cut]).0 == seq(whole, i requires 0 <= i < whole => Block(items[i]))
  {
    hide Boundary, Blocks, Block;
    if items == [] {
      NoBlocksInNothing();
      return 0;
    }
    var frame, rest := Block(items[0]) + "\n\n", Text(items[1..]);
    assert Text(items) == frame + rest;
    assert Block(items[0]) + ("\n\n" + rest) == frame + rest;
    FrameBoundary(items[0], rest);
    var s := Text(items)[..cut];
    assert items[..0] == [] && items[..1] == [items[0]] && Text([items[0]]) == frame by {
      assert [items[0]][1..] == [];
    }
    if cut < |frame| {
      CutFrameHasNoBoundary(frame + rest, |Block(items[0])|, cut);
      BlocksNone(s);
      return 0;
    }
    SameBoundary(frame + rest, s, |Block(items[0])|);
    BlocksStep(s, |Block(items[0])|);
    assert s[|frame|..] == rest[..cut - |frame|];
    assert s[..|Block(items[0])|] == Block(items[0]);
    var more := BlocksOfText(items[1..], cut - |frame|);
    whole := more + 1;
    TextOfPrefix(items, more);
    if whole < |items| {
      TextOfPrefix(items, more + 1);
    }
    assert [Block(items[0])] + seq(more, i requires 0 <= i < more => Block(items[1..][i]))
        == seq(whole, i requires 0 <= i < whole => Block(items[i]));
  }

  lemma NoBlocksInNothing()
    ensures Blocks("").0 == []
  {
  }

  lemma CutFrameHasNoBoundary(s: string, i: nat, cut: nat)
    requires Boundary(s) == Some(i) && cut <= |s| && cut < i + 2
    ensures Boundary(s[..cut]) == None
  {
    var found := Boundary(s[..cut]);
    if found.Some? {
      assert s[..found.value + 2] == s[..cut][..found.value + 2];
      SameBoundary(s[..cut], s, found.value);
    }
  }

  lemma TextOfPrefix(items: seq<Item>, k: nat)
    requires k < |items|
    ensures Text(items[..k + 1]) == Block(items[0]) + "\n\n" + Text(items[1..][..k])
  {
    assert items[..k + 1][1..] == items[1..][..k];
  }

  // ---- Interpreting one frame ----

  lemma {:induction false} LinesOfOne(a: string)
    requires '\n' !in a
    ensures Lines(a) == [a]
  {
    if a != "" {
      assert '\n' !in a[1..] && a == [a[0]] + a[1..];
      LinesOfOne(a[1..]);
    }
  }

  lemma {:induction false} LinesOfMore(a: string, rest: string)
    requires '\n' !in a
    ensures Lines(a + ("\n" + rest)) == [a] + Lines(rest)
  {
    var s := a + ("\n" + rest);
    if a == "" {
      assert s[0] == '\n' && s[1..] == rest;
    } else {
      assert '\n' !in a[1..] && s[1..] == a[1..] + ("\n" + rest) && s[0] == a[0];
      LinesOfMore(a[1..], rest);
      assert a == [a[0]] + a[1..];
    }
  }

  lemma TrimsOneSpace(s: string)
    requires s != "" && !IsSpace(s[0])
    ensures TrimStart(" " + s) == s
  {
    assert (" " + s)[1..] == s;
  }

  lemma NumeralHasNoSpace(n: nat)
    ensures Decimal(n) != "" && !IsSpace(Decimal(n)[0]) && TrimEnd(Decimal(n)) == Decimal(n)
  {
    var s := Decimal(n);
    assert IsDigit(s[0]) && IsDigit(s[|s| - 1]);
  }

  lemma {:induction false} InterpretItem(c: Client, item: Item)
    requires item.Message? ==> GoodPayload(item.payload)
    ensures Interpret(c, Block(item))
         == match item
            case KeepAlive => c
            case Message(sequence, payload) => c.(lastId := Decimal(sequence), received := c.received + [payload])
  {
    match item
    case KeepAlive =>
      var line := Block(item);
      LinesOfOne(line);
      assert line[0] == ':' && !StartsWith(line, "id:") && !StartsWith(line, "data:");
      assert IdOf([line]) == "" && DataLines([line]) == [];
    case Message(sequence, payload) =>
      MessageLines(sequence, payload);
      MessageFields(sequence, payload);
  }

  lemma MessageLines(sequence: nat, payload: string)
    requires GoodPayload(payload)
    ensures Lines(Block(Message(sequence, payload)))
         == ["id: " + Decimal(sequence), "event: processing", "data: " + payload]
  {
    hide Lines, Decimal;
    var id, kind, data := "id: " + Decimal(sequence), "event: processing", "data: " + payload;
    NumeralIsOneLine(sequence);
    assert Block(Message(sequence, payload)) == id + ("\n" + (kind + ("\n" + data)));
    LinesOfMore(id, kind + ("\n" + data));
    LinesOfMore(kind, data);
    LinesOfOne(data);
  }

  lemma MessageFields(sequence: nat, payload: string)
    requires GoodPayload(payload)
    ensures var lines := ["id: " + Decimal(sequence), "event: processing", "data: " + payload];
            IdOf(lines) == Decimal(sequence) && Joined(DataLines(lines)) == payload
  {
    hide Decimal;
    var id, kind, data := "id: " + Decimal(sequence), "event: processing", "data: " + payload;
    NumeralHasNoSpace(sequence);
    TrimsOneSpace(Decimal(sequence));
    TrimsOneSpace(payload);
    assert id[3..] == " " + Decimal(sequence) && data[5..] == " " + payload;
    assert id[..3] == "id:" && data[..5] == "data:";
    assert id[0] == 'i' && kind[0] == 'e';
    var lines := [id, kind, data];
    assert lines[1..] == [kind, data] && [kind, data][1..] == [data];
    assert !StartsWith(id, "data:") && !StartsWith(kind, "data:");
    assert DataLines([data]) == [payload];
    assert DataLines([kind, data]) == [payload];
  }

  lemma {:induction false} InterpretItems(c: Client, items: seq<Item>)
    requires GoodItems(items)
    ensures InterpretAll(c, seq(|items|, i requires 0 <= i < |items| => Block(items[i])))
         == c.(lastId := LastSent(items, c.lastId), received := c.received + Payloads(items))
  {
    hide Interpret, Block;
    var blocks := seq(|items|, i requires 0 <= i < |items| => Block(items[i]));
    if items == [] {
      assert c.received + [] == c.received;
    } else {
      var init, last := items[..|items| - 1], items[|items| - 1];
      InterpretItems(c, init);
      assert blocks[..|blocks| - 1] == seq(|init|, i requires 0 <= i < |init| => Block(init[i]));
      InterpretItem(InterpretAll(c, blocks[..|blocks| - 1]), last);
      assert c.received + Payloads(init) + [] == c.received + Payloads(init);
      assert c.received + Payloads(init) + Payloads([last]) == c.received + (Payloads(init) + Payloads([last]));
    }
  }

  lemma {:induction false} TextHasNoCR(items: seq<Item>)
    requires GoodItems(items)
    ensures '\r' !in Text(items)
  {
    hide Block;
    if items != [] {
      TextHasNoCR(items[1..]);
      BlockHasNoCR(items[0]);
    }
  }

  lemma BlockHasNoCR(item: Item)
    requires item.Message? ==> OneLine(item.payload)
    ensures '\r' !in Block(item)
  {
    hide Decimal;
    if item.Message? {
      NumeralIsOneLine(item.sequence);
    }
  }

  lemma {:induction false} NormalisedWithoutCR(s: string)
    requires '\r' !in s
    ensures Normalised(s) == s
  {
    if |s| >= 2 {
      NormalisedWithoutCR(s[1..]);
      assert s == [s[0]] + s[1..];
    }
  }

  /**
   * The round trip. Whatever frames the server writes, keep-alives between them, wherever the connection is cut
   * and however what arrived is chunked, the client passes on exactly the payloads of the frames that arrived
   * whole, in order, and its last id is that of the last of them.
   */
  lemma {:induction false} RoundTrip(c: Client, items: seq<Item>, cut: nat, chunks: seq<string>) returns (whole: nat)
    requires GoodItems(items) && cut <= |Text(items)| && Concat(chunks) == Text(items)[..cut] && c.buffer == ""
    ensures whole <= |items| && |Text(items[..whole])| <= cut
    ensures whole < |items| ==> cut < |Text(items[..whole + 1])|
    ensures FeedAll(c, chunks).received == c.received + Payloads(items[..whole])
    ensures FeedAll(c, chunks).lastId == LastSent(items[..whole], c.lastId)
  {
    hide Blocks, Normalised, FeedAll, InterpretAll, Text, Concat;
    var text := Text(items)[..cut];
    TextHasNoCR(items);
    assert '\r' !in text;
    NormalisedWithoutCR(text);
    ChunksDoNotMatter(c, chunks);
    whole := BlocksOfText(items, cut);
    assert seq(whole, i requires 0 <= i < whole => Block(items[i]))
        == seq(|items[..whole]|, i requires 0 <= i < |items[..whole]| => Block(items[..whole][i]));
    InterpretItems(c, items[..whole]);
  }
}
