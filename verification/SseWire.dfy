/** The text of the event stream: how the server writes events (internal/transport/sse.go) and how a
    client reads them back by the rules of the WHATWG HTML Living Standard, sections 9.2.5 and 9.2.6. */
module SseWire {
  import opened Util
  import opened Numbers
  import opened Replay

  // ---------------------------------------------------------------- the id header

  predicate Space(c: char) {
    c == ' ' || '\t' <= c <= '\r' || c == '\U{85}' || c == '\U{A0}'
  }

  function TrimLeft(s: string): string {
    if s != [] && Space(s[0]) then TrimLeft(s[1..]) else s
  }

  function TrimRight(s: string): string {
    if s != [] && Space(s[|s| - 1]) then TrimRight(s[..|s| - 1]) else s
  }

  lemma TrimSame(s: string)
    requires s != "" && !Space(s[0]) && !Space(s[|s| - 1])
    ensures TrimRight(TrimLeft(s)) == s
  {
  }

  /** The id that a client sends back is the id it was sent. */
  lemma IdRoundTrip(n: int)
    requires -INT64_LIMIT <= n < INT64_LIMIT
    ensures ParseInt64(TrimRight(TrimLeft(Decimal(n)))) == Some(n)
    ensures Decimal(n) != "" && '\n' !in Decimal(n) && '\r' !in Decimal(n) && '\0' !in Decimal(n)
  {
    ParseDecimal(n);
    DecimalChars(n);
    var s := Decimal(n);
    assert NumberChar(s[0]) && NumberChar(s[|s| - 1]);
    TrimSame(s);
  }

  // ---------------------------------------------------------------- writing

  /** strings.Split(data, "\n"). */
  function Split(data: string): (lines: seq<string>)
    ensures |lines| > 0
  {
    if data == [] then [""]
    else
      var rest := Split(data[1..]);
      if data[0] == '\n' then [""] + rest else [[data[0]] + rest[0]] + rest[1..]
  }

  function Joined(lines: seq<string>): string {
    if lines == [] then "" else lines[0] + "\n" + Joined(lines[1..])
  }

  /** A line with a field name and a value. */
  function FieldLine(name: string, value: string): string {
    name + ": " + value
  }

  function DataLines(lines: seq<string>): seq<string> {
    seq(|lines|, i requires 0 <= i < |lines| => FieldLine("data", lines[i]))
  }

  function HeadLines(id: int, name: string): seq<string> {
    (if name != "" && name != "message" then [FieldLine("event", name)] else []) + [FieldLine("id", Decimal(id))]
  }

  /** writeSSEFrame. */
  function Frame(ev: StoredEvent): string {
    Joined(HeadLines(ev.id, ev.event.name) + DataLines(Split(ev.event.data))) + "\n"
  }

  method WriteFrame(written: string, ev: StoredEvent) returns (w: string)
    ensures w == written + Frame(ev)
  {
    ghost var head, lines := HeadLines(ev.id, ev.event.name), Split(ev.event.data);
    HeadText(ev.id, ev.event.name);
    JoinedConcat(head, DataLines(lines));
    w := WriteHead(ev.id, ev.event.name);
    assert w == Joined(head);
    var body := WriteDataLines(Split(ev.event.data));
    w := written + (w + body + "\n");
  }

  method WriteHead(id: int, name: string) returns (w: string)
    ensures w == (if name != "" && name != "message" then "event: " + name + "\n" else "") + ("id: " + Decimal(id) + "\n")
  {
    w := "";
    if name != "" && name != "message" {
      w := w + ("event: " + name + "\n");
    }
    w := w + ("id: " + Decimal(id) + "\n");
  }

  method WriteDataLines(lines: seq<string>) returns (w: string)
    ensures w == Joined(DataLines(lines))
  {
    w := "";
    for i := 0 to |lines|
      invariant w == Joined(DataLines(lines[..i]))
    {
      DataLinesStep(lines, i);
      w := w + ("data: " + lines[i] + "\n");
    }
    assert lines[..|lines|] == lines;
  }

  lemma DataLinesStep(lines: seq<string>, i: nat)
    requires i < |lines|
    ensures Joined(DataLines(lines[..i + 1])) == Joined(DataLines(lines[..i])) + ("data: " + lines[i] + "\n")
  {
    var last := [FieldLine("data", lines[i])];
    assert DataLines(lines[..i + 1]) == DataLines(lines[..i]) + last;
    JoinedConcat(DataLines(lines[..i]), last);
    assert Joined(last) == last[0] + "\n" + "" == "data: " + lines[i] + "\n";
  }

  lemma HeadText(id: int, name: string)
    ensures Joined(HeadLines(id, name)) ==
            (if name != "" && name != "message" then "event: " + name + "\n" else "") + ("id: " + Decimal(id) + "\n")
  {
    var idLine := FieldLine("id", Decimal(id));
    assert Joined([idLine]) == idLine + "\n" + "" == "id: " + Decimal(id) + "\n";
    if name != "" && name != "message" {
      var eventLine := FieldLine("event", name);
      assert HeadLines(id, name)[1..] == [idLine];
      assert Joined(HeadLines(id, name)) == eventLine + "\n" + Joined([idLine]);
    }
  }

  lemma {:induction false} JoinedConcat(a: seq<string>, b: seq<string>)
    ensures Joined(a + b) == Joined(a) + Joined(b)
  {
    if a == [] {
      assert a + b == b;
    } else {
      JoinedConcat(a[1..], b);
      JoinedHead(a);
      JoinedHead(a + b);
      assert (a + b)[0] == a[0] && (a + b)[1..] == a[1..] + b;
      ConcatAssoc(a[0] + "\n", Joined(a[1..]), Joined(b));
    }
  }

  lemma JoinedHead(lines: seq<string>)
    requires lines != []
    ensures Joined(lines) == (lines[0] + "\n") + Joined(lines[1..])
  {
  }

  // ---------------------------------------------------------------- reading

  datatype Dispatched = Dispatched(eventType: string, data: string, lastEventId: string)

  /** The reader's state between two characters. */
  datatype Reader = Reader(
    line: string,          // of the line being read
    afterCr: bool,         // the last character was a carriage return
    eventType: string,
    data: string,
    id: string,
    events: seq<Dispatched>)

  const FRESH: Reader := Reader("", false, "", "", "", [])

  function ColonAt(line: string): nat {
    if line == [] then 0 else if line[0] == ':' then 0 else 1 + ColonAt(line[1..])
  }

  function SetField(r: Reader, name: string, value: string): Reader {
    if name == "event" then r.(eventType := value)
    else if name == "data" then r.(data := r.data + value + "\n")
    else if name == "id" && '\0' !in value then r.(id := value)
    else r
  }

  function Dispatch(r: Reader): Reader {
    if r.data == "" then r.(eventType := "")
    else
      var data := if r.data[|r.data| - 1] == '\n' then r.data[..|r.data| - 1] else r.data;
      r.(eventType := "", data := "",
         events := r.events + [Dispatched(if r.eventType == "" then "message" else r.eventType, data, r.id)])
  }

  function EndLine(r: Reader): Reader {
    var line, s := r.line, r.(line := "", afterCr := false);
    if line == "" then Dispatch(s)
    else
      var i := ColonAt(line);
      if i == 0 then s
      else if i < |line| then
        var value := line[i + 1..];
        SetField(s, line[..i], if value != "" && value[0] == ' ' then value[1..] else value)
      else SetField(s, line, "")
  }

  /** A line ends at a line feed, a carriage return, or the two together. */
  function ReadChar(r: Reader, c: char): Reader {
    if c == '\n' then if r.afterCr then r.(afterCr := false) else EndLine(r)
    else if c == '\r' then EndLine(r).(afterCr := true)
    else r.(line := r.line + [c], afterCr := false)
  }

  function Read(r: Reader, text: string): Reader
    decreases |text|
  {
    if text == [] then r else Read(ReadChar(r, text[0]), text[1..])
  }

  /** The events dispatched from the text of a stream; one leading byte order mark is skipped. */
  function Parse(text: string): seq<Dispatched> {
    Read(FRESH, if text != [] && text[0] == '\U{FEFF}' then text[1..] else text).events
  }

  lemma {:induction false} ReadConcat(r: Reader, a: string, b: string)
    ensures Read(r, a + b) == Read(Read(r, a), b)
    decreases |a|
  {
    if a == [] {
      assert a + b == b;
    } else {
      assert (a + b)[1..] == a[1..] + b;
      ReadConcat(ReadChar(r, a[0]), a[1..], b);
    }
  }

  /** Reading on never takes back an event. */
  lemma {:induction false} EventsOnlyGrow(r: Reader, text: string)
    ensures r.events <= Read(r, text).events
    decreases |text|
  {
    if text != [] {
      EventsOnlyGrow(ReadChar(r, text[0]), text[1..]);
    }
  }

  predicate OneLine(s: string) {
    '\n' !in s && '\r' !in s
  }

  lemma {:induction false} ReadInLine(r: Reader, text: string)
    requires OneLine(text) && !r.afterCr
    ensures Read(r, text) == r.(line := r.line + text)
    decreases |text|
  {
    if text != [] {
      assert OneLine(text[1..]);
      ReadInLine(ReadChar(r, text[0]), text[1..]);
      assert r.line + [text[0]] + text[1..] == r.line + text;
    } else {
      assert r.line + text == r.line;
    }
  }

  /** Between lines. */
  predicate AtLineStart(r: Reader) {
    r.line == "" && !r.afterCr
  }

  /** Between events. */
  predicate AtEventStart(r: Reader) {
    AtLineStart(r) && r.eventType == "" && r.data == ""
  }

  lemma ReadLine(r: Reader, line: string)
    requires AtLineStart(r) && OneLine(line)
    ensures Read(r, line + "\n") == EndLine(r.(line := line)) && AtLineStart(EndLine(r.(line := line)))
  {
    ReadInLine(r, line);
    ReadConcat(r, line, "\n");
    assert "" + line == line;
    assert Read(r.(line := line), "\n") == ReadChar(r.(line := line), '\n');
  }

  lemma {:induction false} ColonAfter(name: string, rest: string)
    requires ':' !in name
    ensures ColonAt(name + ":" + rest) == |name|
  {
    var s := name + ":" + rest;
    if name != [] {
      assert s[0] == name[0] && s[1..] == name[1..] + ":" + rest;
      ColonAfter(name[1..], rest);
    }
  }

  /** A field line sets its field to exactly the value written, leading spaces and colons included. */
  lemma ReadField(r: Reader, name: string, value: string)
    requires AtLineStart(r) && name != "" && ':' !in name && OneLine(name) && OneLine(value)
    ensures Read(r, FieldLine(name, value) + "\n") == SetField(r, name, value)
  {
    var line := FieldLine(name, value);
    ReadLine(r, line);
    FieldLineParts(name, value);
    assert r.(line := line).(line := "", afterCr := false) == r;
  }

  lemma FieldLineParts(name: string, value: string)
    requires ':' !in name
    ensures var line := FieldLine(name, value);
            && ColonAt(line) == |name| < |line| && line[..|name|] == name
            && line[|name| + 1..] == " " + value && (" " + value)[1..] == value
  {
    var line := FieldLine(name, value);
    assert line == name + ":" + (" " + value);
    ColonAfter(name, " " + value);
    assert line[..|name|] == name && line[|name| + 1..] == " " + value;
  }

  // ---------------------------------------------------------------- a frame round trips

  function TypeOf(name: string): string {
    if name == "" then "message" else name
  }

  function Seen(ev: StoredEvent): Dispatched {
    Dispatched(TypeOf(ev.event.name), ev.event.data, Decimal(ev.id))
  }

  /** The event can be written: its name has no line break and its data no carriage return. */
  predicate Plain(event: Event) {
    OneLine(event.name) && '\r' !in event.data
  }

  /** Lines joined by line feeds, the last one too: what the data buffer collects. */
  lemma {:induction false} SplitJoined(data: string)
    ensures Joined(Split(data)) == data + "\n"
    ensures '\r' !in data ==> forall i :: 0 <= i < |Split(data)| ==> OneLine(Split(data)[i])
  {
    if data == [] {
      assert Joined([""]) == "" + "\n" + Joined([]);
    } else {
      var rest := Split(data[1..]);
      SplitJoined(data[1..]);
      assert data == [data[0]] + data[1..];
      if data[0] == '\n' {
        assert ([""] + rest)[1..] == rest;
        assert Joined(Split(data)) == "" + "\n" + Joined(rest);
      } else {
        var lines := [[data[0]] + rest[0]] + rest[1..];
        assert lines[1..] == rest[1..];
        assert Joined(lines) == [data[0]] + (rest[0] + "\n" + Joined(rest[1..]));
        if '\r' !in data {
          assert OneLine(rest[0]);
        }
      }
    }
  }

  lemma {:induction false} ReadDataLines(r: Reader, lines: seq<string>)
    requires AtLineStart(r) && forall i :: 0 <= i < |lines| ==> OneLine(lines[i])
    ensures Read(r, Joined(DataLines(lines))) == r.(data := r.data + Joined(lines))
    decreases |lines|
  {
    if lines == [] {
      assert r.data + "" == r.data;
    } else {
      assert DataLines(lines) == [FieldLine("data", lines[0])] + DataLines(lines[1..]);
      ReadFieldThen(r, "data", lines[0], DataLines(lines[1..]));
      ReadDataLines(SetField(r, "data", lines[0]), lines[1..]);
      JoinedHead(lines);
      ConcatAssoc(r.data, lines[0] + "\n", Joined(lines[1..]));
      ConcatAssoc(r.data, lines[0], "\n");
    }
  }

  lemma ReadHead(r: Reader, id: int, name: string)
    requires AtEventStart(r) && OneLine(name) && -INT64_LIMIT <= id < INT64_LIMIT
    ensures Read(r, Joined(HeadLines(id, name)))
         == r.(eventType := if name == "message" then "" else name, id := Decimal(id))
  {
    IdRoundTrip(id);
    var idLine := FieldLine("id", Decimal(id));
    if name != "" && name != "message" {
      assert HeadLines(id, name) == [FieldLine("event", name)] + [idLine];
      ReadFieldThen(r, "event", name, [idLine]);
      ReadLastField(SetField(r, "event", name), "id", Decimal(id));
    } else {
      assert HeadLines(id, name) == [idLine];
      ReadLastField(r, "id", Decimal(id));
    }
  }

  lemma ReadFieldThen(r: Reader, name: string, value: string, rest: seq<string>)
    requires AtLineStart(r) && name != "" && ':' !in name && OneLine(name) && OneLine(value)
    ensures Read(r, Joined([FieldLine(name, value)] + rest)) == Read(SetField(r, name, value), Joined(rest))
  {
    var lines := [FieldLine(name, value)] + rest;
    JoinedHead(lines);
    assert lines[1..] == rest;
    ReadConcat(r, lines[0] + "\n", Joined(rest));
    ReadField(r, name, value);
  }

  lemma ReadLastField(r: Reader, name: string, value: string)
    requires AtLineStart(r) && name != "" && ':' !in name && OneLine(name) && OneLine(value)
    ensures Read(r, Joined([FieldLine(name, value)])) == SetField(r, name, value)
  {
    ReadFieldThen(r, name, value, []);
    assert [FieldLine(name, value)] + [] == [FieldLine(name, value)];
  }

  /** Reading a frame between events dispatches exactly the event that was written. */
  lemma FrameRoundTrip(r: Reader, ev: StoredEvent)
    requires AtEventStart(r) && Plain(ev.event) && -INT64_LIMIT <= ev.id < INT64_LIMIT
    ensures Read(r, Frame(ev)) == r.(id := Decimal(ev.id), events := r.events + [Seen(ev)])
  {
    var head, lines := HeadLines(ev.id, ev.event.name), Split(ev.event.data);
    SplitJoined(ev.event.data);
    JoinedConcat(head, DataLines(lines));
    var a := Read(r, Joined(head));
    ReadHead(r, ev.id, ev.event.name);
    ReadConcat(r, Joined(head), Joined(DataLines(lines)));
    ReadDataLines(a, lines);
    var b := a.(data := a.data + Joined(lines));
    assert b.data == ev.event.data + "\n";
    assert b.data[..|b.data| - 1] == ev.event.data;
    ReadConcat(r, Joined(head + DataLines(lines)), "\n");
    assert Read(b, "\n") == ReadChar(b, '\n') == Dispatch(b);
  }

  // ---------------------------------------------------------------- and only for such events

  /** Nothing that was read holds a carriage return, and only data holds line feeds. */
  ghost predicate Unbroken(r: Reader) {
    && OneLine(r.line) && OneLine(r.eventType) && '\r' !in r.data
    && forall i :: 0 <= i < |r.events| ==> OneLine(r.events[i].eventType) && '\r' !in r.events[i].data
  }

  lemma {:induction false} ReadUnbroken(r: Reader, text: string)
    requires Unbroken(r)
    ensures Unbroken(Read(r, text))
    decreases |text|
  {
    if text != [] {
      CharUnbroken(r, text[0]);
      ReadUnbroken(ReadChar(r, text[0]), text[1..]);
    }
  }

  lemma DispatchUnbroken(r: Reader)
    requires Unbroken(r)
    ensures Unbroken(Dispatch(r))
  {
    if r.data != "" {
      var data := if r.data[|r.data| - 1] == '\n' then r.data[..|r.data| - 1] else r.data;
      assert forall k :: 0 <= k < |data| ==> data[k] == r.data[k];
      assert '\r' !in data;
    }
  }

  lemma SetFieldUnbroken(r: Reader, name: string, value: string)
    requires Unbroken(r) && OneLine(value)
    ensures Unbroken(SetField(r, name, value))
  {
  }

  lemma EndLineUnbroken(r: Reader)
    requires Unbroken(r)
    ensures Unbroken(EndLine(r))
  {
    var line, s := r.line, r.(line := "", afterCr := false);
    if line == "" {
      DispatchUnbroken(s);
    } else {
      var i := ColonAt(line);
      if 0 < i < |line| {
        var value := line[i + 1..];
        var stripped := if value != "" && value[0] == ' ' then value[1..] else value;
        assert forall k :: 0 <= k < |value| ==> value[k] == line[i + 1 + k];
        assert OneLine(value);
        assert forall k :: 0 <= k < |stripped| ==> stripped[k] in value;
        SetFieldUnbroken(s, line[..i], stripped);
      } else if i != 0 {
        SetFieldUnbroken(s, line, "");
      }
    }
  }

  lemma CharUnbroken(r: Reader, c: char)
    requires Unbroken(r)
    ensures Unbroken(ReadChar(r, c))
  {
    EndLineUnbroken(r);
  }

  /** The standard's reader undoes the writer exactly for the events that can be written. */
  lemma FrameRoundTripIff(ev: StoredEvent)
    requires -INT64_LIMIT <= ev.id < INT64_LIMIT
    ensures Parse(Frame(ev)) == [Seen(ev)] <==> Plain(ev.event)
  {
    assert Frame(ev)[0] != '\U{FEFF}' by {
      HeadText(ev.id, ev.event.name);
      JoinedConcat(HeadLines(ev.id, ev.event.name), DataLines(Split(ev.event.data)));
    }
    if Plain(ev.event) {
      FrameRoundTrip(FRESH, ev);
    } else {
      ReadUnbroken(FRESH, Frame(ev));
      var events := Read(FRESH, Frame(ev)).events;
      assert events != [] ==> OneLine(events[0].eventType) && '\r' !in events[0].data;
    }
  }

  // ---------------------------------------------------------------- a whole stream

  datatype Chunk = EventFrame(ev: StoredEvent) | Heartbeat | SessionClosed | SessionExpired

  function NoticeLine(c: Chunk): string
    requires !c.EventFrame?
  {
    match c
    case Heartbeat => ": heartbeat"
    case SessionClosed => ": session closed"
    case SessionExpired => "; session expired"
  }

  function ChunkText(c: Chunk): string {
    if c.EventFrame? then Frame(c.ev) else NoticeLine(c) + "\n\n"
  }

  function Text(chunks: seq<Chunk>): string {
    if chunks == [] then "" else ChunkText(chunks[0]) + Text(chunks[1..])
  }

  /** The events that a reader of the whole stream sees. */
  function AllSeen(chunks: seq<Chunk>): seq<Dispatched> {
    if chunks == [] then []
    else SeenIn(chunks[0]) + AllSeen(chunks[1..])
  }

  function SeenIn(c: Chunk): seq<Dispatched> {
    if c.EventFrame? then [Seen(c.ev)] else []
  }

  predicate Writable(c: Chunk) {
    c.EventFrame? ==> Plain(c.ev.event) && 0 < c.ev.id < INT64_LIMIT
  }

  /** A notice line followed by an empty line dispatches nothing. */
  lemma ReadNotice(r: Reader, line: string)
    requires AtEventStart(r) && OneLine(line) && line != ""
    requires line[0] == ':' || (ColonAt(line) == |line| && line !in {"event", "data", "id"})
    ensures Read(r, line + "\n\n") == r
  {
    assert line + "\n\n" == (line + "\n") + "\n";
    ReadConcat(r, line + "\n", "\n");
    ReadLine(r, line);
    assert EndLine(r.(line := line)) == r;
    assert Read(r, "\n") == ReadChar(r, '\n') == Dispatch(r) == r;
  }

  lemma {:induction false} NoColon(line: string)
    requires ':' !in line
    ensures ColonAt(line) == |line|
  {
    if line != [] {
      NoColon(line[1..]);
    }
  }

  /** Two of the notices are comments; the third is a line with a field name that means nothing. */
  lemma NoticeMeansNothing(c: Chunk)
    requires !c.EventFrame?
    ensures var line := NoticeLine(c);
            && OneLine(line) && line != ""
            && (line[0] == ':' || (ColonAt(line) == |line| && line !in {"event", "data", "id"}))
  {
    if c.SessionExpired? {
      NoColon(NoticeLine(c));
    }
  }

  lemma ReadChunk(r: Reader, c: Chunk)
    requires AtEventStart(r) && Writable(c)
    ensures AtEventStart(Read(r, ChunkText(c)))
    ensures Read(r, ChunkText(c)).events == r.events + SeenIn(c)
  {
    if c.EventFrame? {
      FrameRoundTrip(r, c.ev);
    } else {
      NoticeMeansNothing(c);
      ReadNotice(r, NoticeLine(c));
    }
  }

  predicate AllWritable(chunks: seq<Chunk>) {
    forall c :: c in chunks ==> Writable(c)
  }

  lemma ReadNextChunk(r: Reader, chunks: seq<Chunk>) returns (s: Reader)
    requires AtEventStart(r) && chunks != [] && Writable(chunks[0])
    ensures AtEventStart(s) && s.events == r.events + SeenIn(chunks[0])
    ensures Read(r, Text(chunks)) == Read(s, Text(chunks[1..]))
  {
    s := Read(r, ChunkText(chunks[0]));
    ReadChunk(r, chunks[0]);
    ReadConcat(r, ChunkText(chunks[0]), Text(chunks[1..]));
  }

  lemma {:induction false} ReadStream(r: Reader, chunks: seq<Chunk>)
    requires AtEventStart(r) && AllWritable(chunks)
    ensures Read(r, Text(chunks)).events == r.events + AllSeen(chunks)
    decreases |chunks|
  {
    if chunks != [] {
      var s := ReadNextChunk(r, chunks);
      ReadStream(s, chunks[1..]);
      SeenNext(r.events, chunks);
    }
  }

  lemma SeenNext(before: seq<Dispatched>, chunks: seq<Chunk>)
    requires chunks != []
    ensures before + SeenIn(chunks[0]) + AllSeen(chunks[1..]) == before + AllSeen(chunks)
  {
    SeenHead(chunks);
    ConcatAssoc(before, SeenIn(chunks[0]), AllSeen(chunks[1..]));
  }

  lemma SeenHead(chunks: seq<Chunk>)
    requires chunks != []
    ensures AllSeen(chunks) == SeenIn(chunks[0]) + AllSeen(chunks[1..])
  {
  }

  lemma {:induction false} TextStart(chunks: seq<Chunk>)
    ensures Text(chunks) != "" ==> Text(chunks)[0] != '\U{FEFF}'
  {
    if chunks != [] && chunks[0].EventFrame? {
      var ev := chunks[0].ev;
      HeadText(ev.id, ev.event.name);
      JoinedConcat(HeadLines(ev.id, ev.event.name), DataLines(Split(ev.event.data)));
    }
  }

  /** The stream reads back as the events written, notices dispatching nothing; and a client cut off
      anywhere, even inside a frame, has a prefix of them: never a partial or an altered event. */
  lemma StreamRoundTrip(chunks: seq<Chunk>, cut: nat)
    requires AllWritable(chunks)
    requires cut <= |Text(chunks)|
    ensures Parse(Text(chunks)) == AllSeen(chunks)
    ensures Parse(Text(chunks)[..cut]) <= AllSeen(chunks)
  {
    var text := Text(chunks);
    TextStart(chunks);
    ReadStream(FRESH, chunks);
    assert [] + AllSeen(chunks) == AllSeen(chunks);
    CutOff(text, cut);
  }

  /** Whatever has been read before a cut is a prefix of what the whole text holds. */
  lemma CutOff(text: string, cut: nat)
    requires text != "" ==> text[0] != '\U{FEFF}'
    requires cut <= |text|
    ensures Parse(text[..cut]) <= Parse(text)
  {
    var read, rest := text[..cut], text[cut..];
    assert text == read + rest;
    ReadConcat(FRESH, read, rest);
    EventsOnlyGrow(Read(FRESH, read), rest);
    if cut > 0 {
      assert read[0] == text[0];
    }
  }
}
