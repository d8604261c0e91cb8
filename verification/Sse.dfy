/** The text of an event stream, and how a browser reads it: section 9.2 of the WHATWG HTML Standard. */
module Sse {
  import opened Domain
  import opened StreamMachine

  // ---- Writing ----

  const RETRY := "retry: 5000\n\n"
  const KEEPALIVE := ": keepalive\n\n"

  /** _sse */
  function Frame(payload: string): string {
    "data: " + payload + "\n\n"
  }

  function Written(c: Chunk, dumps: Event -> string): string {
    match c
    case Retry => RETRY
    case Keepalive => KEEPALIVE
    case Data(e) => Frame(dumps(e))
  }

  function Wire(out: seq<Chunk>, dumps: Event -> string): string {
    if out == [] then "" else Written(out[0], dumps) + Wire(out[1..], dumps)
  }

  function Payloads(out: seq<Chunk>): seq<Event> {
    if out == [] then []
    else (if out[0].Data? then [out[0].event] else []) + Payloads(out[1..])
  }

  // ---- Reading ----

  predicate OneLine(s: string) {
    '\n' !in s && '\r' !in s
  }

  /** Index of the first line terminator, or the length of s. */
  function LineEnd(s: string): (n: nat)
    ensures n <= |s| && OneLine(s[..n])
    ensures n < |s| ==> s[n] == '\n' || s[n] == '\r'
  {
    if s == "" || s[0] == '\n' || s[0] == '\r' then 0
    else
      var n := LineEnd(s[1..]);
      assert s[..n + 1] == [s[0]] + s[1..][..n];
      n + 1
  }

  /** The terminated lines of s; an unterminated rest is not a line yet. CR LF counts as one terminator. */
  function Lines(s: string): seq<string>
    decreases |s|
  {
    var n := LineEnd(s);
    if n == |s| then []
    else
      var width := if s[n] == '\r' && n + 1 < |s| && s[n + 1] == '\n' then 2 else 1;
      [s[..n]] + Lines(s[n + width..])
  }

  /** The data and event type buffers, the reconnection time, and the data of the messages dispatched so far. */
  datatype Reader = Reader(data: string, eventType: string, retry: Option<string>, messages: seq<string>)

  const NEW_READER := Reader("", "", None, [])

  function Colon(line: string): (n: nat)
    ensures n <= |line|
    ensures n < |line| ==> line[n] == ':'
    ensures forall i :: 0 <= i < n ==> line[i] != ':'
  {
    if line == "" || line[0] == ':' then 0 else 1 + Colon(line[1..])
  }

  predicate Digits(s: string) {
    s != "" && forall i :: 0 <= i < |s| ==> '0' <= s[i] <= '9'
  }

  function Field(r: Reader, name: string, value: string): Reader {
    if name == "event" then r.(eventType := value)
    else if name == "data" then r.(data := r.data + value + "\n")
    else if name == "retry" && Digits(value) then r.(retry := Some(value))
    else r
  }

  /** A blank line dispatches, unless there is no data; the trailing LF of the data goes. */
  function Dispatch(r: Reader): Reader {
    if r.data == "" then r.(eventType := "")
    else Reader("", "", r.retry, r.messages + [r.data[..|r.data| - 1]])
  }

  function ReadLine(r: Reader, line: string): Reader {
    if line == "" then Dispatch(r)
    else if line[0] == ':' then r
    else
      var n := Colon(line);
      if n == |line| then Field(r, line, "")
      else
        var value := line[n + 1..];
        Field(r, line[..n], if value != "" && value[0] == ' ' then value[1..] else value)
  }

  function ReadLines(r: Reader, lines: seq<string>): Reader
    decreases |lines|
  {
    if lines == [] then r else ReadLines(ReadLine(r, lines[0]), lines[1..])
  }

  /** The reader after the text s, a leading byte order mark aside. */
  function Read(s: string): Reader {
    ReadLines(NEW_READER, Lines(if s != "" && s[0] == '\U{FEFF}' then s[1..] else s))
  }

  // ---- Round trip ----

  lemma {:induction false} LineEndAfter(line: string, rest: string)
    requires OneLine(line)
    ensures LineEnd(line + "\n" + rest) == |line|
  {
    var s := line + "\n" + rest;
    if line == "" {
      assert s[0] == '\n';
    } else {
      LineEndAfter(line[1..], rest);
      assert s[1..] == line[1..] + "\n" + rest;
      assert s[0] == line[0];
    }
  }

  lemma LinesAfter(line: string, rest: string)
    requires OneLine(line)
    ensures Lines(line + "\n" + rest) == [line] + Lines(rest)
  {
    var s := line + "\n" + rest;
    LineEndAfter(line, rest);
    assert s[..|line|] == line && s[|line|] == '\n';
    assert s[|line| + 1..] == rest;
  }

  lemma BlankLine(rest: string)
    ensures Lines("\n" + rest) == [""] + Lines(rest)
  {
    LinesAfter("", rest);
    assert "" + "\n" + rest == "\n" + rest;
  }

  lemma TwoBreaks(line: string, rest: string)
    ensures line + "\n\n" + rest == line + "\n" + ("\n" + rest)
  {
    assert "\n\n" == "\n" + "\n";
  }

  lemma TwoInFront(a: string, b: string, lines: seq<string>)
    ensures [a] + ([b] + lines) == [a, b] + lines
  {
  }

  /** A chunk is one line and a blank one. */
  lemma ChunkLines(line: string, rest: string)
    requires OneLine(line)
    ensures Lines(line + "\n\n" + rest) == [line, ""] + Lines(rest)
  {
    TwoBreaks(line, rest);
    LinesAfter(line, "\n" + rest);
    BlankLine(rest);
    TwoInFront(line, "", Lines(rest));
  }

  lemma {:induction false} ColonAfter(name: string, rest: string)
    requires ':' !in name
    ensures Colon(name + ":" + rest) == |name|
  {
    var line := name + ":" + rest;
    if name != "" {
      ColonAfter(name[1..], rest);
      assert line[1..] == name[1..] + ":" + rest;
      assert line[0] == name[0];
    } else {
      assert line[0] == ':';
    }
  }

  /** A field line, with the one space that follows the colon. */
  lemma FieldLine(r: Reader, name: string, value: string)
    requires name != "" && ':' !in name
    ensures ReadLine(r, name + ": " + value) == Field(r, name, value)
  {
    var line := name + ": " + value;
    assert line == name + ":" + (" " + value);
    ColonAfter(name, " " + value);
    assert line[0] == name[0] && line[0] in name;
    assert line[..|name|] == name && line[|name| + 1..] == " " + value;
    assert (" " + value)[1..] == value;
  }

  lemma DataLine(r: Reader, payload: string)
    ensures ReadLine(r, "data: " + payload) == r.(data := r.data + payload + "\n")
  {
    assert "data: " + payload == "data" + ": " + payload;
    FieldLine(r, "data", payload);
  }

  lemma RetryField(r: Reader)
    ensures Field(r, "retry", "5000") == r.(retry := Some("5000"))
  {
    assert "retry"[0] != "event"[0] && |"retry"| != |"data"|;
    assert Digits("5000");
  }

  lemma RetryText()
    ensures "retry: 5000" == "retry" + ": " + "5000"
  {
  }

  lemma RetryLine(r: Reader)
    ensures ReadLine(r, "retry: 5000") == r.(retry := Some("5000"))
  {
    RetryText();
    assert "retry"[0] == 'r' && "retry"[1] == 'e' && "retry"[2] == 't' && "retry"[3] == 'r' && "retry"[4] == 'y';
    FieldLine(r, "retry", "5000");
    RetryField(r);
  }

  function Texts(events: seq<Event>, dumps: Event -> string): seq<string> {
    if events == [] then [] else [dumps(events[0])] + Texts(events[1..], dumps)
  }

  /** What one chunk does to a reader that is between two events. */
  function AfterChunk(r: Reader, c: Chunk, dumps: Event -> string): Reader {
    match c
    case Retry => r.(retry := Some("5000"))
    case Keepalive => r
    case Data(e) => r.(messages := r.messages + [dumps(e)])
  }

  predicate Between(r: Reader) {
    r.data == "" && r.eventType == ""
  }

  lemma TwoLines(r: Reader, line: string, rest: seq<string>)
    ensures ReadLines(r, [line, ""] + rest) == ReadLines(Dispatch(ReadLine(r, line)), rest)
  {
    var lines := [line, ""] + rest;
    assert lines[1..][0] == "" && lines[1..][1..] == rest;
  }

  /** A line and a blank line, seen from a reader between two events. */
  lemma ReadsOneLine(r: Reader, line: string, written: string, rest: string)
    requires OneLine(line) && written == line + "\n\n"
    ensures ReadLines(r, Lines(written + rest)) == ReadLines(Dispatch(ReadLine(r, line)), Lines(rest))
  {
    ChunkLines(line, rest);
    TwoLines(r, line, Lines(rest));
  }

  lemma DataThenBlank(r: Reader, payload: string)
    requires Between(r)
    ensures Dispatch(ReadLine(r, "data: " + payload)) == r.(messages := r.messages + [payload])
  {
    DataLine(r, payload);
    assert r.data + payload + "\n" == payload + "\n";
    assert (payload + "\n")[..|payload|] == payload;
  }

  lemma ReadsData(r: Reader, payload: string, rest: string)
    requires Between(r) && OneLine(payload)
    ensures ReadLines(r, Lines(Frame(payload) + rest)) == ReadLines(r.(messages := r.messages + [payload]), Lines(rest))
  {
    var line := "data: " + payload;
    assert OneLine(line);
    DataThenBlank(r, payload);
    ReadsOneLine(r, line, Frame(payload), rest);
  }

  lemma ReadsChunk(r: Reader, c: Chunk, dumps: Event -> string, rest: string)
    requires Between(r) && (c.Data? ==> OneLine(dumps(c.event)))
    ensures ReadLines(r, Lines(Written(c, dumps) + rest)) == ReadLines(AfterChunk(r, c, dumps), Lines(rest))
  {
    match c
    case Retry =>
      ReadsOneLine(r, "retry: 5000", RETRY, rest);
      RetryLine(r);
    case Keepalive => ReadsOneLine(r, ": keepalive", KEEPALIVE, rest);
    case Data(e) => ReadsData(r, dumps(e), rest);
  }

  lemma {:induction false} ReadsChunks(r: Reader, out: seq<Chunk>, dumps: Event -> string)
    requires forall e :: OneLine(dumps(e))
    requires Between(r)
    ensures var end := ReadLines(r, Lines(Wire(out, dumps)));
      && Between(end) && end.messages == r.messages + Texts(Payloads(out), dumps)
      && end.retry == if Retry in out then Some("5000") else r.retry
    decreases |out|
  {
    if out == [] {
      assert Lines("") == [];
    } else {
      var next := AfterChunk(r, out[0], dumps);
      ReadsChunk(r, out[0], dumps, Wire(out[1..], dumps));
      ReadsChunks(next, out[1..], dumps);
      OneMoreText(r, out, dumps);
    }
  }

  lemma OneMoreText(r: Reader, out: seq<Chunk>, dumps: Event -> string)
    requires out != []
    ensures r.messages + Texts(Payloads(out), dumps)
         == AfterChunk(r, out[0], dumps).messages + Texts(Payloads(out[1..]), dumps)
  {
    if out[0].Data? {
      assert Payloads(out)[1..] == Payloads(out[1..]);
    } else {
      assert Payloads(out) == Payloads(out[1..]);
    }
  }

  /** The browser sees the payloads of a stream in order and nothing else, whatever the encoder, as long as it writes single lines. */
  lemma RoundTrip(out: seq<Chunk>, dumps: Event -> string)
    requires forall e :: OneLine(dumps(e))
    ensures Read(Wire(out, dumps)).messages == Texts(Payloads(out), dumps)
    ensures Read(Wire(out, dumps)).retry == if Retry in out then Some("5000") else None
  {
    ReadsChunks(NEW_READER, out, dumps);
    if out != [] {
      assert Wire(out, dumps)[0] == Written(out[0], dumps)[0];
    }
  }
}
