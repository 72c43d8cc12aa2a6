/** Resuming an event stream (internal/transport/sse.go): the server's side of one connection, and
    runs of connections by a client that reconnects with the id of the last event it received.

    One connection is served at a time.  What cuts a connection off cuts its text at any character. */
module SseStream {
  import opened Util
  import opened Numbers
  import opened Replay
  import opened SseWire

  // ---------------------------------------------------------------- one connection

  /** What the writer's select can receive, in order; the client's going away ends the script. */
  datatype Signal = Emitted(event: Event) | ChannelClosed | Ticked | SessionDone | ClientGone

  datatype Status = Ok | NoContent | BadRequest

  /** What a connection wrote, as chunks, and the log when it ended. */
  datatype Served = Served(status: Status, chunks: seq<Chunk>, log: seq<Event>)

  function Frames(events: seq<StoredEvent>): seq<Chunk> {
    seq(|events|, i requires 0 <= i < |events| => EventFrame(events[i]))
  }

  function Then(first: Chunk, s: Served): Served {
    s.(chunks := [first] + s.chunks)
  }

  /** What the writer puts on the wire for a signal. */
  function ChunkFor(log: seq<Event>, s: Signal): Chunk
    requires !s.ClientGone?
  {
    match s
    case Emitted(e) => EventFrame(StoredEvent(|log| + 1, e))
    case Ticked => Heartbeat
    case ChannelClosed => SessionClosed
    case SessionDone => SessionExpired
  }

  function LogAfter(log: seq<Event>, s: Signal): seq<Event> {
    if s.Emitted? then log + [s.event] else log
  }

  predicate Stops(s: Signal) {
    s.ChannelClosed? || s.SessionDone?
  }

  /** The live loop. */
  function Live(log: seq<Event>, script: seq<Signal>): Served
    decreases |script|
  {
    if script == [] || script[0].ClientGone? then Served(Ok, [], log)
    else
      var c := ChunkFor(log, script[0]);
      if Stops(script[0]) then Served(Ok, [c], log)
      else Then(c, Live(LogAfter(log, script[0]), script[1..]))
  }

  /** serveSSE with the given Last-Event-ID header ("" if absent). */
  function Serve(log: seq<Event>, capacity: nat, header: string, script: seq<Signal>): Served {
    if header == "" then Live(log, script)
    else
      match ParseInt64(TrimRight(TrimLeft(header)))
      case None => Served(BadRequest, [], log)
      case Some(k) =>
        match After(log, capacity, k)
        case None => Served(NoContent, [], log)
        case Some(events) =>
          var s := Live(log, script);
          s.(chunks := Frames(events) + s.chunks)
  }

  const BAD_HEADER := "invalid Last-Event-ID"

  /** What the client is sent: the event stream, or the text of an error. */
  function Body(s: Served): string {
    if s.status == BadRequest then BAD_HEADER + "\n" else Text(s.chunks)
  }

  /** What a client sees of a response, whatever its header. */
  lemma ServeParses(log: seq<Event>, capacity: nat, header: string, script: seq<Signal>)
    ensures var s := Serve(log, capacity, header, script);
            && StartAt(header, |log|) <= |s.log|
            && (s.status == Ok && Loggable(s.log) ==> Parse(Text(s.chunks)) == SeenLog(s.log)[StartAt(header, |log|)..])
  {
    var s := Serve(log, capacity, header, script);
    LiveIsOk(log, script);
    if s.status == Ok && Loggable(s.log) {
      if header == "" {
        LiveFromTheEnd(log, script);
      } else {
        var k := ParseInt64(TrimRight(TrimLeft(header))).value;
        ReplayClamped(log, capacity, k);
        ReplayThenLive(log, capacity, Clamp(k, |log|), script);
      }
      StreamRoundTrip(s.chunks, 0);
    }
  }

  /** How much of a log of n events a client that sends this header is taken to have. */
  function StartAt(header: string, n: nat): (k: nat)
    ensures k <= n
  {
    if header == "" then n
    else
      match ParseInt64(TrimRight(TrimLeft(header)))
      case None => n
      case Some(id) => Clamp(id, n)
  }

  lemma ReplayClamped(log: seq<Event>, capacity: nat, k: int)
    requires After(log, capacity, k).Some?
    ensures After(log, capacity, Clamp(k, |log|)) == After(log, capacity, k)
  {
  }

  method ServeSse(buffer: ReplayBuffer, header: string, script: seq<Signal>) returns (status: Status, body: string)
    requires buffer.Valid()
    modifies buffer`events, buffer`nextId, buffer`log
    ensures buffer.Valid()
    ensures var s := Serve(old(buffer.log), buffer.capacity, header, script);
            status == s.status && body == Body(s) && buffer.log == s.log
    ensures var n := |old(buffer.log)|; var id := ParseInt64(TrimRight(TrimLeft(header)));
            && (status == BadRequest <==> header != "" && id.None?)
            && (status == NoContent <==> header != "" && id.Some? && id.value < n - Min(n, buffer.capacity))
            && buffer.log == old(buffer.log) + (if status == Ok then Emissions(script) else [])
            && (status == BadRequest ==> body == "invalid Last-Event-ID\n")
            && (status == NoContent ==> body == "")
            && (status == Ok && Loggable(buffer.log) ==> Parse(body) == SeenLog(buffer.log)[StartAt(header, n)..])
  {
    LiveIsOk(buffer.log, script);
    LiveLogs(buffer.log, script);
    assert buffer.log + [] == buffer.log;
    ServeParses(buffer.log, buffer.capacity, header, script);
    if header == "" {
      body := RunLive(buffer, script);
      return Ok, body;
    }
    var lastId := ParseInt64(TrimRight(TrimLeft(header)));
    if lastId.None? {
      return BadRequest, BAD_HEADER + "\n";
    }
    var events, replayable := buffer.Since(lastId.value);
    if !replayable {
      return NoContent, "";
    }
    var replayed := WriteFrames(events);
    TextConcat(Frames(events), Live(buffer.log, script).chunks);
    var rest := RunLive(buffer, script);
    status, body := Ok, replayed + rest;
  }

  lemma {:induction false} LiveIsOk(log: seq<Event>, script: seq<Signal>)
    ensures Live(log, script).status == Ok && log <= Live(log, script).log
    decreases |script|
  {
    if script != [] && !script[0].ClientGone? && !Stops(script[0]) {
      LiveIsOk(LogAfter(log, script[0]), script[1..]);
    }
  }

  method WriteFrames(events: seq<StoredEvent>) returns (w: string)
    ensures w == Text(Frames(events))
  {
    w := "";
    for i := 0 to |events|
      invariant w == Text(Frames(events[..i]))
    {
      w := WriteFrame(w, events[i]);
      FramesSnoc(events, i);
    }
    assert events[..|events|] == events;
  }

  lemma FramesSnoc(events: seq<StoredEvent>, i: nat)
    requires i < |events|
    ensures Text(Frames(events[..i + 1])) == Text(Frames(events[..i])) + Frame(events[i])
  {
    var c := EventFrame(events[i]);
    assert Frames(events[..i + 1]) == Frames(events[..i]) + [c];
    TextSnoc(Frames(events[..i]), c);
    assert ChunkText(c) == Frame(events[i]);
  }

  method Handle(buffer: ReplayBuffer, s: Signal) returns (w: string)
    requires buffer.Valid() && !s.ClientGone?
    modifies buffer`events, buffer`nextId, buffer`log
    ensures buffer.Valid() && buffer.log == LogAfter(old(buffer.log), s)
    ensures w == ChunkText(ChunkFor(old(buffer.log), s))
    ensures s.Emitted? ==> w == Frame(StoredEvent(|buffer.log|, s.event)) && buffer.log == old(buffer.log) + [s.event]
    ensures !s.Emitted? ==> buffer.log == old(buffer.log)
    ensures s.Ticked? ==> w == ": heartbeat\n\n"
    ensures s.ChannelClosed? ==> w == ": session closed\n\n"
    ensures s.SessionDone? ==> w == "; session expired\n\n"
  {
    match s {
      case Emitted(e) =>
        var stored := buffer.Append(e);
        w := WriteFrame("", stored);
        assert "" + Frame(stored) == Frame(stored);
      case Ticked => w := ": heartbeat" + "\n\n";
      case ChannelClosed => w := ": session closed" + "\n\n";
      case SessionDone => w := "; session expired" + "\n\n";
    }
  }

  method RunLive(buffer: ReplayBuffer, script: seq<Signal>) returns (w: string)
    requires buffer.Valid()
    modifies buffer`events, buffer`nextId, buffer`log
    ensures buffer.Valid()
    ensures w == Text(Live(old(buffer.log), script).chunks) && buffer.log == Live(old(buffer.log), script).log
    ensures buffer.log == old(buffer.log) + Emissions(script)
    ensures Loggable(buffer.log) ==> Parse(w) == SeenLog(buffer.log)[|old(buffer.log)|..]
  {
    LiveLogs(buffer.log, script);
    if Loggable(Live(buffer.log, script).log) {
      LiveParses(buffer.log, script);
    }
    w := "";
    ghost var whole := Live(buffer.log, script);
    ghost var left := script;
    ghost var done: seq<Chunk> := [];
    assert whole == Prepended(done, whole);
    for i := 0 to |script|
      invariant buffer.Valid() && left == script[i..] && w == Text(done)
      invariant whole == Prepended(done, Live(buffer.log, left))
    {
      assert left[0] == script[i];
      if script[i].ClientGone? {
        assert done + [] == done;
        return;
      }
      ghost var next := ChunkFor(buffer.log, script[i]);
      ghost var log := LogAfter(buffer.log, script[i]);
      TextSnoc(done, next);
      PrependMore(done, next, Live(log, left[1..]));
      var text := Handle(buffer, script[i]);
      w := w + text;
      if Stops(script[i]) {
        return;
      }
      done, left := done + [next], left[1..];
    }
    assert done + [] == done;
  }

  function Prepended(chunks: seq<Chunk>, s: Served): Served {
    s.(chunks := chunks + s.chunks)
  }

  lemma PrependMore(chunks: seq<Chunk>, next: Chunk, s: Served)
    ensures Prepended(chunks, Then(next, s)) == Prepended(chunks + [next], s)
  {
    assert chunks + ([next] + s.chunks) == chunks + [next] + s.chunks;
  }

  lemma {:induction false} TextConcat(a: seq<Chunk>, b: seq<Chunk>)
    ensures Text(a + b) == Text(a) + Text(b)
  {
    if a == [] {
      assert a + b == b;
    } else {
      assert (a + b)[1..] == a[1..] + b;
      TextConcat(a[1..], b);
      assert ChunkText(a[0]) + (Text(a[1..]) + Text(b)) == ChunkText(a[0]) + Text(a[1..]) + Text(b);
    }
  }

  lemma TextSnoc(a: seq<Chunk>, c: Chunk)
    ensures Text(a + [c]) == Text(a) + ChunkText(c)
  {
    TextConcat(a, [c]);
    assert [c][1..] == [];
    assert Text([c]) == ChunkText(c) + "";
  }

  // ---------------------------------------------------------------- what a connection carries

  /** How a client sees the events of the log. */
  function SeenLog(log: seq<Event>): (r: seq<Dispatched>)
    ensures |r| == |log|
  {
    seq(|log|, i requires 0 <= i < |log| => Seen(StoredEvent(i + 1, log[i])))
  }

  /** Every event of the log can be written, and ids stay within 64 bits. */
  predicate Loggable(log: seq<Event>) {
    |log| + 1 < INT64_LIMIT && forall i :: 0 <= i < |log| ==> Plain(log[i])
  }

  lemma {:induction false} AllSeenConcat(a: seq<Chunk>, b: seq<Chunk>)
    ensures AllSeen(a + b) == AllSeen(a) + AllSeen(b)
  {
    if a == [] {
      assert a + b == b;
    } else {
      assert (a + b)[1..] == a[1..] + b;
      AllSeenConcat(a[1..], b);
    }
  }

  lemma {:induction false} FramesSeen(events: seq<StoredEvent>)
    ensures |AllSeen(Frames(events))| == |events|
    ensures forall i :: 0 <= i < |events| ==> AllSeen(Frames(events))[i] == Seen(events[i])
  {
    if events != [] {
      assert Frames(events)[1..] == Frames(events[1..]);
      FramesSeen(events[1..]);
    }
  }

  lemma SeenOne(log: seq<Event>, s: Signal)
    requires !s.ClientGone?
    ensures SeenLog(log) + SeenIn(ChunkFor(log, s)) == SeenLog(LogAfter(log, s))
  {
  }

  lemma LoggablePrefix(log: seq<Event>, longer: seq<Event>)
    requires log <= longer && Loggable(longer)
    ensures Loggable(log)
  {
    assert forall i :: 0 <= i < |log| ==> log[i] == longer[i];
  }

  lemma ChunkWritable(log: seq<Event>, s: Signal)
    requires !s.ClientGone? && Loggable(LogAfter(log, s))
    ensures Writable(ChunkFor(log, s))
  {
    if s.Emitted? {
      assert LogAfter(log, s)[|log|] == s.event;
    }
  }

  /** The live loop carries exactly the events it appends. */
  lemma {:induction false} LiveCarries(log: seq<Event>, script: seq<Signal>)
    requires Loggable(Live(log, script).log)
    ensures var s := Live(log, script);
            AllWritable(s.chunks) && SeenLog(log) + AllSeen(s.chunks) == SeenLog(s.log)
    decreases |script|
  {
    if script == [] || script[0].ClientGone? {
      assert SeenLog(log) + [] == SeenLog(log);
    } else {
      var c, next := ChunkFor(log, script[0]), LogAfter(log, script[0]);
      SeenOne(log, script[0]);
      if Stops(script[0]) {
        assert AllSeen([c]) == SeenIn(c) + AllSeen([]);
        ChunkWritable(log, script[0]);
      } else {
        LiveCarries(next, script[1..]);
        LiveIsOk(next, script[1..]);
        LoggablePrefix(next, Live(next, script[1..]).log);
        ChunkWritable(log, script[0]);
        CarriesMore(log, c, next, Live(next, script[1..]));
      }
    }
  }

  lemma CarriesMore(log: seq<Event>, c: Chunk, next: seq<Event>, s: Served)
    requires SeenLog(log) + SeenIn(c) == SeenLog(next)
    requires Writable(c) && AllWritable(s.chunks) && SeenLog(next) + AllSeen(s.chunks) == SeenLog(s.log)
    ensures AllWritable(Then(c, s).chunks) && SeenLog(log) + AllSeen(Then(c, s).chunks) == SeenLog(s.log)
  {
    var chunks := Then(c, s).chunks;
    assert chunks[0] == c && chunks[1..] == s.chunks;
    SeenHead(chunks);
    ConcatAssoc(SeenLog(log), SeenIn(c), AllSeen(s.chunks));
    assert forall d :: d in chunks ==> d == c || d in s.chunks;
  }

  lemma ReplayCarries(log: seq<Event>, capacity: nat, k: nat)
    requires k <= |log| && After(log, capacity, k).Some? && Loggable(log)
    ensures AllWritable(Frames(After(log, capacity, k).value))
    ensures AllSeen(Frames(After(log, capacity, k).value)) == SeenLog(log)[k..]
  {
    var events := After(log, capacity, k).value;
    var seen := AllSeen(Frames(events));
    FramesSeen(events);
    assert |events| == |log| - k;
    forall i | 0 <= i < |events|
      ensures Writable(Frames(events)[i]) && seen[i] == SeenLog(log)[k..][i]
    {
      ReplayedAt(log, capacity, k, i);
      assert seen[i] == Seen(events[i]);
      assert SeenLog(log)[k..][i] == SeenLog(log)[k + i];
    }
  }

  lemma ReplayedAt(log: seq<Event>, capacity: nat, k: nat, i: nat)
    requires After(log, capacity, k).Some? && Loggable(log) && k + i < |log|
    ensures var events := After(log, capacity, k).value;
            && i < |events| && events[i] == StoredEvent(k + i + 1, log[k + i])
            && Writable(EventFrame(events[i])) && SeenLog(log)[k + i] == Seen(events[i])
  {
  }

  /** Replaying from id k and going live carries everything from there to the end of the log. */
  lemma ReplayThenLive(log: seq<Event>, capacity: nat, k: nat, script: seq<Signal>)
    requires k <= |log| && After(log, capacity, k).Some? && Loggable(Live(log, script).log)
    ensures var chunks := Frames(After(log, capacity, k).value) + Live(log, script).chunks;
            && AllWritable(chunks) && k <= |Live(log, script).log|
            && AllSeen(chunks) == SeenLog(Live(log, script).log)[k..]
  {
    var replay := Frames(After(log, capacity, k).value);
    var live := Live(log, script);
    LiveCarries(log, script);
    LiveIsOk(log, script);
    LoggablePrefix(log, live.log);
    ReplayCarries(log, capacity, k);
    AllSeenConcat(replay, live.chunks);
    DropConcat(SeenLog(log), AllSeen(live.chunks), k);
  }

  lemma DropConcat<T>(a: seq<T>, b: seq<T>, k: nat)
    requires k <= |a|
    ensures a[k..] + b == (a + b)[k..]
  {
  }

  // ---------------------------------------------------------------- what a script does, from the script alone

  /** The events emitted before the stream ends: the channel closes, the session ends or the client goes. */
  function Emissions(script: seq<Signal>): seq<Event> {
    if script == [] || script[0].ChannelClosed? || script[0].SessionDone? || script[0].ClientGone? then []
    else (if script[0].Emitted? then [script[0].event] else []) + Emissions(script[1..])
  }

  /** How many signals the stream has a chunk for: all before its end, and the end unless the client goes. */
  function Answered(script: seq<Signal>): nat {
    if script == [] || script[0].ClientGone? then 0
    else if script[0].ChannelClosed? || script[0].SessionDone? then 1
    else 1 + Answered(script[1..])
  }

  /** The live loop logs exactly what is emitted before the stream ends, in order. */
  lemma {:induction false} LiveLogs(log: seq<Event>, script: seq<Signal>)
    ensures Live(log, script).log == log + Emissions(script)
    decreases |script|
  {
    if script == [] || script[0].ClientGone? || script[0].ChannelClosed? || script[0].SessionDone? {
      assert log + [] == log;
    } else {
      var now := if script[0].Emitted? then [script[0].event] else [];
      LiveLogs(LogAfter(log, script[0]), script[1..]);
      assert LogAfter(log, script[0]) == log + now;
      ConcatAssoc(log, now, Emissions(script[1..]));
    }
  }

  /** The k-th chunk of the stream by the k-th signal: an event is written with the id it is logged under. */
  predicate ChunkOk(log: seq<Event>, script: seq<Signal>, k: int, c: Chunk)
    requires 0 <= k < |script|
  {
    match script[k]
    case Emitted(e) => c == EventFrame(StoredEvent(|log| + |Emissions(script[..k])| + 1, e))
    case Ticked => c == Heartbeat
    case ChannelClosed => c == SessionClosed
    case SessionDone => c == SessionExpired
    case ClientGone => false
  }

  lemma {:induction false} AnsweredBound(script: seq<Signal>)
    ensures Answered(script) <= |script|
  {
    if script != [] {
      AnsweredBound(script[1..]);
    }
  }

  /** The live loop writes one chunk for each signal up to the end of the stream, heartbeats included. */
  lemma {:induction false} LiveWrites(log: seq<Event>, script: seq<Signal>)
    ensures var chunks := Live(log, script).chunks;
            && |chunks| == Answered(script) <= |script|
            && forall k :: 0 <= k < |chunks| ==> ChunkOk(log, script, k, chunks[k])
    decreases |script|
  {
    if script != [] && !script[0].ClientGone? {
      var chunks := Live(log, script).chunks;
      assert Emissions(script[..0]) == [];
      assert chunks[0] == ChunkFor(log, script[0]) && ChunkOk(log, script, 0, chunks[0]);
      if !script[0].ChannelClosed? && !script[0].SessionDone? {
        var next, rest := LogAfter(log, script[0]), script[1..];
        LiveWrites(next, rest);
        var tail := Live(next, rest).chunks;
        assert chunks == [chunks[0]] + tail;
        forall k | 1 <= k < |chunks| ensures ChunkOk(log, script, k, chunks[k]) {
          assert rest[k - 1] == script[k] && chunks[k] == tail[k - 1];
          assert ChunkOk(next, rest, k - 1, tail[k - 1]);
          assert script[..k][1..] == rest[..k - 1] && script[..k][0] == script[0];
        }
      }
    }
  }

  lemma {:induction false} EmissionsConcat(a: seq<Signal>, b: seq<Signal>)
    requires forall i :: 0 <= i < |a| ==> a[i].Emitted? || a[i].Ticked?
    ensures Emissions(a + b) == Emissions(a) + Emissions(b)
  {
    if a == [] {
      assert a + b == b;
    } else {
      assert (a + b)[1..] == a[1..] + b;
      EmissionsConcat(a[1..], b);
    }
  }

  lemma TickedEmitsNothing(before: seq<Signal>, after: seq<Signal>)
    requires forall i :: 0 <= i < |before| ==> before[i].Emitted? || before[i].Ticked?
    ensures Emissions(before + ([Ticked] + after)) == Emissions(before + after)
  {
    var ticked := [Ticked] + after;
    FirstEmission(ticked);
    assert ticked[1..] == after;
    EmissionsConcat(before, ticked);
    EmissionsConcat(before, after);
  }

  lemma FirstEmission(script: seq<Signal>)
    requires script != [] && script[0].Ticked?
    ensures Emissions(script) == Emissions(script[1..])
  {
    assert [] + Emissions(script[1..]) == Emissions(script[1..]);
  }

  /** A heartbeat before the end of the stream changes neither what is logged nor what the client sees. */
  lemma HeartbeatIsInvisible(log: seq<Event>, before: seq<Signal>, after: seq<Signal>)
    requires forall i :: 0 <= i < |before| ==> before[i].Emitted? || before[i].Ticked?
    requires Loggable(log + Emissions(before + after))
    ensures var with, without := Live(log, before + ([Ticked] + after)), Live(log, before + after);
            with.log == without.log && Parse(Text(with.chunks)) == Parse(Text(without.chunks))
  {
    TickedEmitsNothing(before, after);
    LiveParses(log, before + ([Ticked] + after));
    LiveParses(log, before + after);
  }

  /** The client of a live stream sees exactly the events emitted before its end, under the ids that
      follow the log. */
  lemma LiveParses(log: seq<Event>, script: seq<Signal>)
    requires Loggable(log + Emissions(script))
    ensures Live(log, script).log == log + Emissions(script)
    ensures Parse(Text(Live(log, script).chunks)) == SeenLog(log + Emissions(script))[|log|..]
  {
    LiveLogs(log, script);
    LiveFromTheEnd(log, script);
    StreamRoundTrip(Live(log, script).chunks, 0);
  }

  // ---------------------------------------------------------------- runs of connections

  /** A client with what it has received, in order.  `first` counts the events that were logged before
      the connection that brought its first event, or, while it has none, before its latest one: until
      then it has no id to send, and every connection starts over at the end of the log. */
  datatype State = State(log: seq<Event>, received: seq<Dispatched>, first: nat, status: Status)

  /** One connection: what happens on the server, and how many characters reach the client. */
  datatype Connection = Connection(script: seq<Signal>, cut: nat)

  /** The header a client sends: the id of the last event it received, if any. */
  function LastEventId(received: seq<Dispatched>): string {
    if received == [] then "" else received[|received| - 1].lastEventId
  }

  function Connect(s: State, capacity: nat, c: Connection): State {
    var served := Serve(s.log, capacity, LastEventId(s.received), c.script);
    var text := Text(served.chunks);
    State(served.log,
          s.received + Parse(text[..Min(c.cut, |text|)]),
          if s.received == [] then |s.log| else s.first,
          served.status)
  }

  function ConnectAll(log: seq<Event>, capacity: nat, run: seq<Connection>): State {
    if run == [] then State(log, [], |log|, Ok)
    else Connect(ConnectAll(log, capacity, run[..|run| - 1]), capacity, run[|run| - 1])
  }

  /** What the client has is a contiguous stretch of the log, from `first` on. */
  ghost predicate GapFree(s: State) {
    && s.first + |s.received| <= |s.log|
    && s.received == SeenLog(s.log)[s.first..s.first + |s.received|]
  }

  lemma HeaderIsLastId(s: State)
    requires GapFree(s) && s.received != [] && Loggable(s.log)
    ensures LastEventId(s.received) != ""
    ensures ParseInt64(TrimRight(TrimLeft(LastEventId(s.received)))) == Some(s.first + |s.received|)
  {
    var n := s.first + |s.received|;
    assert s.received[|s.received| - 1] == SeenLog(s.log)[n - 1];
    IdRoundTrip(n);
  }

  /** Where a client's next connection picks up. */
  function From(s: State): nat {
    if s.received == [] then |s.log| else s.first + |s.received|
  }

  function ServeClient(s: State, capacity: nat, script: seq<Signal>): Served {
    Serve(s.log, capacity, LastEventId(s.received), script)
  }

  lemma ServeLogGrows(s: State, capacity: nat, script: seq<Signal>)
    ensures s.log <= ServeClient(s, capacity, script).log
  {
    LiveIsOk(s.log, script);
  }

  /** What a connection would carry in full continues the client's stretch to the end of the log. */
  lemma ServeContinues(s: State, capacity: nat, script: seq<Signal>)
    requires GapFree(s) && Loggable(ServeClient(s, capacity, script).log)
    ensures var served := ServeClient(s, capacity, script);
            && AllWritable(served.chunks) && From(s) <= |served.log|
            && served.status == (if From(s) < Evicted(s.log, capacity) && s.received != [] then NoContent else Ok)
            && (served.status == Ok ==> AllSeen(served.chunks) == SeenLog(served.log)[From(s)..])
            && (served.status == NoContent ==> served.chunks == [] && served.log == s.log)
  {
    ServeLogGrows(s, capacity, script);
    LoggablePrefix(s.log, ServeClient(s, capacity, script).log);
    if s.received == [] {
      LiveFromTheEnd(s.log, script);
    } else {
      HeaderIsLastId(s);
      ServeFrom(s.log, capacity, LastEventId(s.received), From(s), script);
    }
  }

  /** What a client that sends id k is answered with. */
  lemma ServeFrom(log: seq<Event>, capacity: nat, header: string, k: nat, script: seq<Signal>)
    requires header != "" && ParseInt64(TrimRight(TrimLeft(header))) == Some(k) && k <= |log|
    requires Loggable(Serve(log, capacity, header, script).log)
    ensures var served := Serve(log, capacity, header, script);
            && AllWritable(served.chunks) && k <= |served.log|
            && served.status == (if k < Evicted(log, capacity) then NoContent else Ok)
            && (served.status == Ok ==> AllSeen(served.chunks) == SeenLog(served.log)[k..])
            && (served.status == NoContent ==> served.chunks == [] && served.log == log)
  {
    LiveIsOk(log, script);
    if After(log, capacity, k).Some? {
      ReplayThenLive(log, capacity, k, script);
    }
  }

  lemma LiveFromTheEnd(log: seq<Event>, script: seq<Signal>)
    requires Loggable(Live(log, script).log)
    ensures var live := Live(log, script);
            && live.status == Ok && AllWritable(live.chunks) && |log| <= |live.log|
            && AllSeen(live.chunks) == SeenLog(live.log)[|log|..]
  {
    var live := Live(log, script);
    LiveIsOk(log, script);
    LiveCarries(log, script);
    assert (SeenLog(log) + AllSeen(live.chunks))[|log|..] == AllSeen(live.chunks);
  }

  /** A prefix of what follows a stretch extends it. */
  lemma Extend<T>(all: seq<T>, first: nat, n: nat, had: seq<T>, more: seq<T>)
    requires first + n <= |all| && had == all[first..first + n] && more <= all[first + n..]
    ensures first + n + |more| <= |all|
    ensures had + more == all[first..first + n + |more|]
    ensures more == all[first + n..] ==> had + more == all[first..]
  {
    assert more == all[first + n..][..|more|];
  }

  /** The log's view only grows. */
  lemma SeenLogGrows(log: seq<Event>, longer: seq<Event>, first: nat, n: nat)
    requires log <= longer && first + n <= |log|
    ensures SeenLog(log)[first..first + n] == SeenLog(longer)[first..first + n]
  {
    assert forall i :: 0 <= i < |log| ==> log[i] == longer[i];
  }

  /** What a connection brings, wherever it is cut, is a prefix of what follows the client's stretch;
      uncut, it is all of it. */
  lemma ConnectionBrings(s: State, capacity: nat, c: Connection) returns (more: seq<Dispatched>)
    requires GapFree(s) && Loggable(Connect(s, capacity, c).log)
    ensures var t := Connect(s, capacity, c);
            && t.received == s.received + more
            && t.first + |s.received| == From(s) <= |t.log| && s.log <= t.log
            && more <= SeenLog(t.log)[From(s)..]
            && (Uncut(s, capacity, c) ==> more == SeenLog(t.log)[From(s)..])
  {
    var served := ServeClient(s, capacity, c.script);
    var text := Text(served.chunks);
    var cut := Min(c.cut, |text|);
    more := Parse(text[..cut]);
    ServeContinues(s, capacity, c.script);
    ServeLogGrows(s, capacity, c.script);
    StreamRoundTrip(served.chunks, cut);
    assert text[..|text|] == text;
  }

  /** A connection that is answered with 200 and read to its end. */
  predicate Uncut(s: State, capacity: nat, c: Connection) {
    var served := ServeClient(s, capacity, c.script);
    served.status == Ok && c.cut >= |Text(served.chunks)|
  }

  /** A client's stretch, seen in a longer log and extended by what follows it there. */
  lemma StretchExtends(s: State, log: seq<Event>, first: nat, more: seq<Dispatched>)
    requires GapFree(s) && s.log <= log && first + |s.received| == From(s)
    requires more <= SeenLog(log)[From(s)..]
    ensures var all, r := SeenLog(log), s.received + more;
            && first + |r| <= |log| && r == all[first..first + |r|]
            && (more == all[From(s)..] ==> r == all[first..])
  {
    var n := |s.received|;
    SeenLogGrows(s.log, log, s.first, n);
    if n == 0 {
      assert SeenLog(log)[first..first] == [];
    }
    Extend(SeenLog(log), first, n, s.received, more);
  }

  /** One more connection, wherever it is cut, extends the stretch without a gap or a repetition. */
  lemma ConnectKeepsGapFree(s: State, capacity: nat, c: Connection)
    requires GapFree(s) && Loggable(Connect(s, capacity, c).log)
    ensures GapFree(Connect(s, capacity, c))
  {
    var more := ConnectionBrings(s, capacity, c);
    StretchExtends(s, Connect(s, capacity, c).log, Connect(s, capacity, c).first, more);
  }

  lemma {:induction false} RunIsGapFree(log: seq<Event>, capacity: nat, run: seq<Connection>)
    requires Loggable(ConnectAll(log, capacity, run).log)
    ensures GapFree(ConnectAll(log, capacity, run))
  {
    if run != [] {
      var s := ConnectAll(log, capacity, run[..|run| - 1]);
      var c := run[|run| - 1];
      ServeLogGrows(s, capacity, c.script);
      LoggablePrefix(s.log, Connect(s, capacity, c).log);
      RunIsGapFree(log, capacity, run[..|run| - 1]);
      ConnectKeepsGapFree(s, capacity, c);
    }
  }

  lemma ReceivedAt(s: State, i: nat)
    requires GapFree(s) && Loggable(s.log) && i < |s.received|
    ensures s.received[i] == Seen(StoredEvent(s.first + i + 1, s.log[s.first + i]))
    ensures ParseInt64(s.received[i].lastEventId) == Some(s.first + i + 1)
  {
    assert s.received[i] == SeenLog(s.log)[s.first + i];
    ParseDecimal(s.first + i + 1);
  }

  /** Over every run of connections, each cut off anywhere: the events received carry consecutive ids,
      with no gap and no duplicate, and are the events emitted under those ids. */
  lemma ConsecutiveIds(log: seq<Event>, capacity: nat, run: seq<Connection>, i: nat)
    requires Loggable(ConnectAll(log, capacity, run).log)
    requires i < |ConnectAll(log, capacity, run).received|
    ensures var s := ConnectAll(log, capacity, run);
            && s.first + i < |s.log|
            && s.received[i] == Seen(StoredEvent(s.first + i + 1, s.log[s.first + i]))
            && ParseInt64(s.received[i].lastEventId) == Some(s.first + i + 1)
  {
    RunIsGapFree(log, capacity, run);
    ReceivedAt(ConnectAll(log, capacity, run), i);
  }

  /** Some event later than the last one the client received is no longer retained. */
  ghost predicate MissedForGood(s: State, capacity: nat) {
    exists j :: s.first + |s.received| <= j < |s.log| && Stored(s.log)[j] !in Retained(s.log, capacity)
  }

  /** In every run, a client that has received something and reconnects gets 204 exactly when some event
      later than the last one it received has been evicted, and otherwise 200: its own header is never
      refused as malformed.  Events that were skipped before its first one do not count. */
  lemma NoContentIffEvicted(log: seq<Event>, capacity: nat, run: seq<Connection>, script: seq<Signal>)
    requires ConnectAll(log, capacity, run).received != []
    requires Loggable(ServeClient(ConnectAll(log, capacity, run), capacity, script).log)
    ensures var s := ConnectAll(log, capacity, run);
            ServeClient(s, capacity, script).status == if MissedForGood(s, capacity) then NoContent else Ok
  {
    var s := ConnectAll(log, capacity, run);
    ServeLogGrows(s, capacity, script);
    LoggablePrefix(s.log, ServeClient(s, capacity, script).log);
    RunIsGapFree(log, capacity, run);
    ServeContinues(s, capacity, script);
    EvictedIndices(s.log, capacity);
    if From(s) < Evicted(s.log, capacity) {
      assert Stored(s.log)[From(s)] !in Retained(s.log, capacity);
    }
  }

  /** An uncut connection answered with 200 brings the client up to date. */
  lemma UncutConnection(s: State, capacity: nat, c: Connection)
    requires GapFree(s) && Loggable(Connect(s, capacity, c).log) && Uncut(s, capacity, c)
    ensures var t := Connect(s, capacity, c); t.first <= |t.log| && t.received == SeenLog(t.log)[t.first..]
  {
    var more := ConnectionBrings(s, capacity, c);
    StretchExtends(s, Connect(s, capacity, c).log, Connect(s, capacity, c).first, more);
  }

  /** In every run, a connection answered with 200 and read to its end leaves the client with every
      event from `first` on: that is, with everything logged since its first connection began exactly
      if `first` is still where that connection found the log. */
  lemma CaughtUp(log: seq<Event>, capacity: nat, run: seq<Connection>, c: Connection)
    requires Loggable(Connect(ConnectAll(log, capacity, run), capacity, c).log)
    requires Uncut(ConnectAll(log, capacity, run), capacity, c)
    ensures var t := Connect(ConnectAll(log, capacity, run), capacity, c);
            && |log| <= t.first <= |t.log| && t.received == SeenLog(t.log)[t.first..]
            && (t.received == SeenLog(t.log)[|log|..] <==> t.first == |log|)
  {
    var s := ConnectAll(log, capacity, run);
    ServeLogGrows(s, capacity, c.script);
    LoggablePrefix(s.log, Connect(s, capacity, c).log);
    RunIsGapFree(log, capacity, run);
    FirstFrom(log, capacity, run);
    UncutConnection(s, capacity, c);
  }

  lemma {:induction false} FirstFrom(log: seq<Event>, capacity: nat, run: seq<Connection>)
    ensures var s := ConnectAll(log, capacity, run); |log| <= s.first <= |s.log|
  {
    if run != [] {
      var s := ConnectAll(log, capacity, run[..|run| - 1]);
      FirstFrom(log, capacity, run[..|run| - 1]);
      ServeLogGrows(s, capacity, run[|run| - 1].script);
    }
  }

  lemma {:induction false} RunLogGrows(log: seq<Event>, capacity: nat, run: seq<Connection>, j: nat)
    requires j <= |run|
    ensures |ConnectAll(log, capacity, run[..j]).log| <= |ConnectAll(log, capacity, run).log|
  {
    if j == |run| {
      assert run[..j] == run;
    } else {
      var before := run[..|run| - 1];
      assert before[..j] == run[..j];
      RunLogGrows(log, capacity, before, j);
      ServeLogGrows(ConnectAll(log, capacity, before), capacity, run[|run| - 1].script);
    }
  }

  /** A connection starts for a client that has nothing, after events have been logged since its first
      connection began. */
  predicate StartsOver(log: seq<Event>, capacity: nat, earlier: seq<Connection>) {
    var s := ConnectAll(log, capacity, earlier);
    s.received == [] && |s.log| > |log|
  }

  ghost predicate NeverStartsOver(log: seq<Event>, capacity: nat, run: seq<Connection>) {
    forall j :: 0 <= j < |run| ==> !StartsOver(log, capacity, run[..j])
  }

  lemma NeverStartsOverSnoc(log: seq<Event>, capacity: nat, before: seq<Connection>, c: Connection)
    ensures NeverStartsOver(log, capacity, before + [c]) <==>
            NeverStartsOver(log, capacity, before) && !StartsOver(log, capacity, before)
  {
    var run := before + [c];
    assert forall j :: 0 <= j < |before| ==> run[..j] == before[..j];
    assert run[..|before|] == before;
    if NeverStartsOver(log, capacity, run) {
      forall j | 0 <= j < |before| ensures !StartsOver(log, capacity, before[..j]) {
        assert !StartsOver(log, capacity, run[..j]);
      }
    }
  }

  lemma NothingLoggedYet(log: seq<Event>, capacity: nat, run: seq<Connection>)
    requires |ConnectAll(log, capacity, run).log| <= |log|
    ensures NeverStartsOver(log, capacity, run)
  {
    forall j | 0 <= j < |run| ensures !StartsOver(log, capacity, run[..j]) {
      RunLogGrows(log, capacity, run, j);
    }
  }

  lemma FirstAfter(log: seq<Event>, capacity: nat, before: seq<Connection>, c: Connection)
    ensures var s := ConnectAll(log, capacity, before);
            ConnectAll(log, capacity, before + [c]).first == if s.received == [] then |s.log| else s.first
  {
    assert (before + [c])[..|before|] == before;
  }

  /** Nothing logged since a client's first connection is skipped exactly if none of its connections
      starts over. */
  lemma {:induction false} NothingSkippedIff(log: seq<Event>, capacity: nat, run: seq<Connection>)
    ensures ConnectAll(log, capacity, run).first == |log| <==> NeverStartsOver(log, capacity, run)
  {
    if run != [] {
      var before, c := run[..|run| - 1], run[|run| - 1];
      assert run == before + [c];
      NothingSkippedIff(log, capacity, before);
      NeverStartsOverSnoc(log, capacity, before, c);
      FirstAfter(log, capacity, before, c);
      FirstFrom(log, capacity, before);
      if |ConnectAll(log, capacity, before).log| == |log| {
        NothingLoggedYet(log, capacity, before);
      }
    }
  }

  lemma {:induction false} FirstStays(log: seq<Event>, capacity: nat, run: seq<Connection>, more: seq<Connection>)
    requires ConnectAll(log, capacity, run).received != []
    ensures ConnectAll(log, capacity, run + more).received != []
    ensures ConnectAll(log, capacity, run + more).first == ConnectAll(log, capacity, run).first
  {
    if more == [] {
      assert run + more == run;
    } else {
      var rest := more[..|more| - 1];
      FirstStays(log, capacity, run, rest);
      assert (run + more)[..|run + more| - 1] == run + rest;
    }
  }

  /** What was skipped is lost for good: once the client has an event, no later run of connections
      brings it anything logged before `first`. */
  lemma SkippedIsLost(log: seq<Event>, capacity: nat, run: seq<Connection>, more: seq<Connection>, i: nat)
    requires ConnectAll(log, capacity, run).received != []
    requires Loggable(ConnectAll(log, capacity, run + more).log)
    requires i < |ConnectAll(log, capacity, run + more).received|
    ensures var id := ParseInt64(ConnectAll(log, capacity, run + more).received[i].lastEventId);
            id.Some? && id.value > ConnectAll(log, capacity, run).first
  {
    FirstStays(log, capacity, run, more);
    ConsecutiveIds(log, capacity, run + more, i);
  }

  /** It does happen: an event that is written to a client's first connection but does not reach it is
      skipped by the next one, although both are answered with 200. */
  lemma FirstEventSkipped(log: seq<Event>, capacity: nat, e: Event, c: Connection)
    ensures var s := ConnectAll(log, capacity, [Connection([Emitted(e)], 0)]);
            && s.status == Ok && s.received == [] && s.log == log + [e]
            && var t := ConnectAll(log, capacity, [Connection([Emitted(e)], 0), c]);
               t.status == Ok && t.first == |log| + 1 && |log| < |t.log| && t.log[|log|] == e
  {
    var lost := Connection([Emitted(e)], 0);
    var start := ConnectAll(log, capacity, []);
    var s := Connect(start, capacity, lost);
    assert [lost][..0] == [] && [lost, c][..1] == [lost];
    assert Live(log + [e], lost.script[1..]) == Served(Ok, [], log + [e]);
    assert s.log == log + [e] && s.received == [];
    LiveIsOk(s.log, c.script);
    ServeLogGrows(s, capacity, c.script);
  }

  /** A skipped event is not missed.  After connections that logged e and brought the client nothing, such
      as the one of FirstEventSkipped, one more brings it f; with room for one event, it is then answered
      with 200, although it has never seen e and e has been evicted. */
  lemma SkippedIsNotMissed(log: seq<Event>, before: seq<Connection>, e: Event, f: Event, n: nat, script: seq<Signal>)
    requires ConnectAll(log, 1, before).received == [] && ConnectAll(log, 1, before).log == log + [e]
    requires Uncut(ConnectAll(log, 1, before), 1, Connection([Emitted(f)], n))
    requires Loggable(ServeClient(ConnectAll(log, 1, before + [Connection([Emitted(f)], n)]), 1, script).log)
    ensures var s := ConnectAll(log, 1, before + [Connection([Emitted(f)], n)]);
            && s.log == log + [e] + [f] && s.received == [Seen(StoredEvent(|log| + 2, f))]
            && Stored(s.log)[|log|] == StoredEvent(|log| + 1, e) && Stored(s.log)[|log|] !in Retained(s.log, 1)
            && ServeClient(s, 1, script).status == Ok
  {
    var c := Connection([Emitted(f)], n);
    var r := ConnectAll(log, 1, before);
    assert (before + [c])[..|before|] == before;
    assert ConnectAll(log, 1, before + [c]) == Connect(r, 1, c);
    ServeLogGrows(Connect(r, 1, c), 1, script);
    LoggablePrefix(Connect(r, 1, c).log, ServeClient(Connect(r, 1, c), 1, script).log);
    ServeLogGrows(r, 1, c.script);
    LoggablePrefix(r.log, Connect(r, 1, c).log);
    RunIsGapFree(log, 1, before);
    OnlyEventSeen(r, 1, f, n);
    SeenToTheEnd(Connect(r, 1, c), script);
    EvictedIndices(log + [e] + [f], 1);
  }

  /** The first event that reaches a client. */
  lemma OnlyEventSeen(r: State, capacity: nat, f: Event, n: nat)
    requires GapFree(r) && r.received == [] && Uncut(r, capacity, Connection([Emitted(f)], n))
    requires Loggable(Connect(r, capacity, Connection([Emitted(f)], n)).log)
    ensures var s := Connect(r, capacity, Connection([Emitted(f)], n));
            && s.log == r.log + [f] && s.first == |r.log| && GapFree(s)
            && s.received == [Seen(StoredEvent(|r.log| + 1, f))]
  {
    var c := Connection([Emitted(f)], n);
    LiveOne(r.log, f);
    UncutConnection(r, capacity, c);
    ConnectKeepsGapFree(r, capacity, c);
    SeenLast(r.log, f);
  }

  lemma SeenLast(log: seq<Event>, f: Event)
    ensures SeenLog(log + [f])[|log|..] == [Seen(StoredEvent(|log| + 1, f))]
  {
  }

  /** A client that has the last event is always answered with 200. */
  lemma SeenToTheEnd(s: State, script: seq<Signal>)
    requires GapFree(s) && s.received != [] && s.first + |s.received| == |s.log|
    requires Loggable(ServeClient(s, 1, script).log)
    ensures ServeClient(s, 1, script).status == Ok
  {
    ServeContinues(s, 1, script);
  }

  lemma LiveOne(log: seq<Event>, f: Event)
    ensures Live(log, [Emitted(f)]).log == log + [f]
  {
    assert [Emitted(f)][1..] == [];
    assert Live(log + [f], []).log == log + [f];
  }

  /** The events no longer retained are those at the front. */
  lemma EvictedIndices(log: seq<Event>, capacity: nat)
    ensures forall j :: 0 <= j < |log| ==> (Stored(log)[j] !in Retained(log, capacity) <==> j < Evicted(log, capacity))
  {
    var gone := Evicted(log, capacity);
    assert Retained(log, capacity) == Stored(log)[gone..];
    forall j | 0 <= j < |log| ensures Stored(log)[j] !in Retained(log, capacity) <==> j < gone {
      StoredFrom(log, gone, j);
    }
  }

  lemma StoredFrom(log: seq<Event>, gone: nat, j: nat)
    requires gone <= |log| && j < |log|
    ensures Stored(log)[j] in Stored(log)[gone..] <==> gone <= j
  {
    var all := Stored(log);
    var tail := all[gone..];
    if gone <= j {
      assert tail[j - gone] == all[j];
    } else {
      assert forall i :: 0 <= i < |tail| ==> tail[i].id == gone + i + 1;
    }
  }
}
