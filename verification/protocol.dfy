/**
  The message protocol handler of the worker manager: newline-delimited JSON.
  Incoming text is appended to a buffer; every complete line that is not
  blank is parsed, and a line that does not parse is dropped without
  interrupting the lines after it. Outgoing messages are JSON followed by a
  line feed.
 */
module Protocol {
  import opened Wrappers
  import opened Json
  import JsText
  import opened Framing

  /** The handler's only state: the unterminated tail of the stream so far. */
  datatype Handler = Handler(buffer: string)

  /** A new handler starts with an empty buffer. */
  const Initial: Handler := Handler("")

  /** What one call of `processData` produces: the handler afterwards, the
      complete lines it consumed and the messages it returns. */
  datatype Feed = Feed(handler: Handler, lines: seq<string>, messages: seq<Json>)

  /** The messages one complete line contributes: none when it is blank (the
      `line.trim()` test) or when it does not parse (the parse error is caught
      and logged), otherwise the parsed value. */
  function DecodeLine(c: JsonCodec, line: string): (ms: seq<Json>)
    ensures |ms| <= 1
    ensures |ms| == 1 <==> !JsText.Blank(line) && c.parse(line).Some?
    ensures |ms| == 1 ==> Some(ms[0]) == c.parse(line)
  {
    if JsText.Blank(line) then []
    else
      match c.parse(line)
      case None => []
      case Some(m) => [m]
  }

  /** The loop over the complete lines: the messages of each line, in line order. */
  function DecodeLines(c: JsonCodec, lines: seq<string>): (ms: seq<Json>)
    ensures |ms| <= |lines|
  {
    if |lines| == 0 then [] else DecodeLine(c, lines[0]) + DecodeLines(c, lines[1..])
  }

  /** `processData(data)`: the buffer plus `data` is cut into complete lines and
      a new buffer; nothing is lost, the new buffer holds no line feed, and the
      result is the decoding of the complete lines. */
  function ProcessData(c: JsonCodec, h: Handler, data: string): (r: Feed)
    ensures NoNewline(r.handler.buffer)
    ensures AllLines(r.lines)
    ensures h.buffer + data == Unlines(r.lines) + r.handler.buffer
    ensures r.messages == DecodeLines(c, r.lines)
  {
    var f := Cut(h.buffer + data);
    Feed(Handler(f.rest), f.complete, DecodeLines(c, f.complete))
  }

  /** `serializeMessage(message)`: the JSON text followed by one line feed. */
  function SerializeMessage(c: JsonCodec, m: Json): string {
    c.stringify(m) + "\n"
  }

  /** `clearBuffer()`: drop the unterminated tail. */
  function ClearBuffer(h: Handler): Handler {
    Handler("")
  }

  /** After `clearBuffer` nothing received earlier can leak into later
      messages: the handler behaves exactly like a new one. */
  lemma ClearBufferForgets(c: JsonCodec, h: Handler, data: string)
    ensures ClearBuffer(h) == Initial
    ensures ProcessData(c, ClearBuffer(h), data) == ProcessData(c, Initial, data)
  {
  }

  /** Decoding distributes over concatenation of line sequences. */
  lemma {:induction false} DecodeLinesAppend(c: JsonCodec, a: seq<string>, b: seq<string>)
    ensures DecodeLines(c, a + b) == DecodeLines(c, a) + DecodeLines(c, b)
    decreases |a|
  {
    if |a| == 0 {
      assert a + b == b;
    } else {
      assert (a + b)[1..] == a[1..] + b;
      DecodeLinesAppend(c, a[1..], b);
    }
  }

  /** Chunking invariance: feeding `a` and then `b` returns the same messages,
      in the same order, and leaves the same buffer as feeding `a + b` at once. */
  lemma ChunkingInvariance(c: JsonCodec, h: Handler, a: string, b: string)
    ensures var r1 := ProcessData(c, h, a);
            var r2 := ProcessData(c, r1.handler, b);
            var r := ProcessData(c, h, a + b);
            r.messages == r1.messages + r2.messages && r.handler == r2.handler
  {
    var r1 := ProcessData(c, h, a);
    CutChunks(h.buffer, a, b);
    DecodeLinesAppend(c, r1.lines, Cut(r1.handler.buffer + b).complete);
  }

  /** A blank line between other lines produces no message. */
  lemma BlankLineIgnored(c: JsonCodec, before: seq<string>, line: string, after: seq<string>)
    requires JsText.Blank(line)
    ensures DecodeLines(c, before + [line] + after) == DecodeLines(c, before) + DecodeLines(c, after)
  {
    DecodeLinesAppend(c, before, [line] + after);
    assert before + [line] + after == before + ([line] + after);
    assert ([line] + after)[1..] == after;
  }

  /** A line that fails to parse is skipped and the lines after it are still
      decoded. */
  lemma MalformedLineSkipped(c: JsonCodec, before: seq<string>, line: string, after: seq<string>)
    requires c.parse(line).None?
    ensures DecodeLines(c, before + [line] + after) == DecodeLines(c, before) + DecodeLines(c, after)
  {
    DecodeLinesAppend(c, before, [line] + after);
    assert before + [line] + after == before + ([line] + after);
    assert ([line] + after)[1..] == after;
  }

  /** Order: when every line parses to a message, the messages come back
      exactly in line order, one per line. */
  lemma {:induction false} MessagesInLineOrder(c: JsonCodec, lines: seq<string>, ms: seq<Json>)
    requires |lines| == |ms|
    requires forall i :: 0 <= i < |lines| ==> !JsText.Blank(lines[i]) && c.parse(lines[i]) == Some(ms[i])
    ensures DecodeLines(c, lines) == ms
    decreases |lines|
  {
    if |lines| > 0 {
      MessagesInLineOrder(c, lines[1..], ms[1..]);
      assert ms == [ms[0]] + ms[1..];
    }
  }

  /** Under the JSON assumptions a serialized message is one line: a single
      line feed, at its end. */
  lemma SerializedIsOneLine(c: JsonCodec, m: Json)
    requires Lawful(c)
    ensures var s := SerializeMessage(c, m);
            |s| >= 1 && s[|s| - 1] == '\n' && NoNewline(s[..|s| - 1])
  {
    var s := SerializeMessage(c, m);
    assert s[..|s| - 1] == c.stringify(m);
  }

  /** The serialization of a sequence of messages, one line each. */
  function SerializeAll(c: JsonCodec, ms: seq<Json>): string {
    if |ms| == 0 then "" else SerializeMessage(c, ms[0]) + SerializeAll(c, ms[1..])
  }

  /** The JSON text of each message. */
  function Texts(c: JsonCodec, ms: seq<Json>): (ts: seq<string>)
    ensures |ts| == |ms|
    ensures forall i :: 0 <= i < |ms| ==> ts[i] == c.stringify(ms[i])
  {
    if |ms| == 0 then [] else [c.stringify(ms[0])] + Texts(c, ms[1..])
  }

  /** The serialization of messages is the text of their lines. */
  lemma {:induction false} SerializeAllIsUnlines(c: JsonCodec, ms: seq<Json>)
    ensures SerializeAll(c, ms) == Unlines(Texts(c, ms))
    decreases |ms|
  {
    if |ms| > 0 {
      SerializeAllIsUnlines(c, ms[1..]);
      assert Texts(c, ms)[1..] == Texts(c, ms[1..]);
    }
  }

  /** Stream round trip: feeding the serialization of any sequence of messages
      into a new handler returns exactly those messages and leaves the buffer
      empty. */
  lemma StreamRoundTrip(c: JsonCodec, ms: seq<Json>)
    requires Lawful(c) && forall i :: 0 <= i < |ms| ==> OnWire(ms[i])
    ensures ProcessData(c, Initial, SerializeAll(c, ms)) == Feed(Initial, Texts(c, ms), ms)
  {
    var ts := Texts(c, ms);
    SerializeAllIsUnlines(c, ms);
    assert AllLines(ts);
    CutUnlines(ts);
    assert "" + SerializeAll(c, ms) == SerializeAll(c, ms);
    MessagesInLineOrder(c, ts, ms);
  }

  /** Round trip of one message: feeding `serializeMessage(m)` into a new
      handler returns `[m]` and leaves the buffer empty. */
  lemma RoundTrip(c: JsonCodec, m: Json)
    requires Lawful(c) && OnWire(m)
    ensures var r := ProcessData(c, Initial, SerializeMessage(c, m));
            r.messages == [m] && r.handler.buffer == ""
  {
    assert SerializeAll(c, [m]) == SerializeMessage(c, m) + SerializeAll(c, []);
    assert SerializeAll(c, [m]) == SerializeMessage(c, m);
    StreamRoundTrip(c, [m]);
  }

  /** Partial-chunk reassembly: a serialized message split at any offset and fed
      in two pieces yields exactly that message, and nothing is left behind. */
  lemma SplitDelivery(c: JsonCodec, m: Json, k: nat)
    requires Lawful(c) && OnWire(m)
    requires k <= |SerializeMessage(c, m)|
    ensures var s := SerializeMessage(c, m);
            var r1 := ProcessData(c, Initial, s[..k]);
            var r2 := ProcessData(c, r1.handler, s[k..]);
            r1.messages + r2.messages == [m] && r2.handler == Initial
  {
    var s := SerializeMessage(c, m);
    var x, y := s[..k], s[k..];
    assert x + y == s;
    ChunkingInvariance(c, Initial, x, y);
    RoundTrip(c, m);
    var r := ProcessData(c, Initial, s);
    assert r.messages == [m] && r.handler == Initial;
  }

  /** Malformed-line tolerance: an unparseable line followed by a valid one
      yields exactly the valid message. */
  lemma MalformedThenValid(c: JsonCodec, bad: string, m: Json)
    requires Lawful(c) && OnWire(m)
    requires NoNewline(bad) && c.parse(bad).None?
    ensures ProcessData(c, Initial, bad + "\n" + SerializeMessage(c, m)).messages == [m]
  {
    var lines := [bad, c.stringify(m)];
    assert lines[1..] == [c.stringify(m)] && lines[1..][1..] == [];
    assert Unlines(lines[1..]) == c.stringify(m) + "\n" + "";
    assert Unlines(lines) == bad + "\n" + Unlines(lines[1..]);
    assert AllLines(lines);
    CutUnlines(lines);
    assert "" + (bad + "\n" + SerializeMessage(c, m)) == Unlines(lines);
    assert DecodeLines(c, lines) == DecodeLine(c, bad) + DecodeLines(c, [c.stringify(m)]);
  }
}
