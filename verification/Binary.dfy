/** Binary frames (internal/protocol/binary.go) and the file stream built from them: the agent
    cuts a file into framed chunks (agent/client/dispatch.go), the server routes each frame by its
    correlation prefix (internal/agent/connection.go) and the fs_read tool joins the payloads
    (internal/mcp/tools/fs.go). */
module Binary {
  import opened Util

  type byte = b: int | 0 <= b < 256
  type uint32 = n: int | 0 <= n < 0x1_0000_0000
  type Prefix = p: seq<byte> | |p| == 4 witness [0, 0, 0, 0]

  const HEADER_SIZE: nat := 9
  const FRAME_FILE_CONTENT: byte := 4
  const CHUNK_SIZE: nat := 65536

  datatype Header = Header(prefix: Prefix, sequence: uint32, frameType: byte)

  // ---------------------------------------------------------------- the header

  function BigEndian(n: uint32): (bs: seq<byte>)
    ensures |bs| == 4
  {
    [n / 0x100_0000, n / 0x1_0000 % 0x100, n / 0x100 % 0x100, n % 0x100]
  }

  function FromBigEndian(bs: seq<byte>): uint32
    requires |bs| == 4
  {
    bs[0] as int * 0x100_0000 + bs[1] as int * 0x1_0000 + bs[2] as int * 0x100 + bs[3] as int
  }

  function EncodeHeader(h: Header): (bs: seq<byte>)
    ensures |bs| == HEADER_SIZE
  {
    h.prefix + BigEndian(h.sequence) + [h.frameType]
  }

  function DecodeHeader(bs: seq<byte>): Header
    requires |bs| >= HEADER_SIZE
  {
    Header(bs[0..4], FromBigEndian(bs[4..8]), bs[8])
  }

  lemma BigEndianRoundTrip(n: uint32)
    ensures FromBigEndian(BigEndian(n)) == n
  {
    assert n == n / 0x100 * 0x100 + n % 0x100;
    assert n / 0x100 == n / 0x1_0000 * 0x100 + n / 0x100 % 0x100;
    assert n / 0x1_0000 == n / 0x100_0000 * 0x100 + n / 0x1_0000 % 0x100;
  }

  lemma FromBigEndianRoundTrip(bs: seq<byte>)
    requires |bs| == 4
    ensures BigEndian(FromBigEndian(bs)) == bs
  {
    var n := FromBigEndian(bs);
    assert n / 0x100 == bs[0] as int * 0x1_0000 + bs[1] as int * 0x100 + bs[2] as int;
    assert n / 0x1_0000 == bs[0] as int * 0x100 + bs[1] as int;
    assert n / 0x100_0000 == bs[0];
  }

  /** The header survives the wire whatever payload follows it. */
  lemma HeaderRoundTrip(h: Header, payload: seq<byte>)
    ensures DecodeHeader(EncodeHeader(h) + payload) == h
  {
    BigEndianRoundTrip(h.sequence);
    var bs := EncodeHeader(h) + payload;
    assert bs[0..4] == h.prefix;
    assert bs[4..8] == BigEndian(h.sequence);
  }

  /** Every nine bytes are the encoding of exactly the header they decode to. */
  lemma HeaderBytesRoundTrip(bs: seq<byte>)
    requires |bs| == HEADER_SIZE
    ensures EncodeHeader(DecodeHeader(bs)) == bs
  {
    FromBigEndianRoundTrip(bs[4..8]);
    assert bs == bs[0..4] + bs[4..8] + [bs[8]];
  }

  method EncodeHeaderInto(buf: array<byte>, h: Header)
    requires buf.Length >= HEADER_SIZE
    modifies buf
    ensures buf[..HEADER_SIZE] == EncodeHeader(h)
    ensures buf[..4] == h.prefix && buf[8] == h.frameType
    ensures buf[4] as int * 0x100_0000 + buf[5] as int * 0x1_0000 + buf[6] as int * 0x100 + buf[7] as int == h.sequence
    ensures buf[HEADER_SIZE..] == old(buf[HEADER_SIZE..])
  {
    for i := 0 to 4
      invariant buf[..i] == h.prefix[..i]
      invariant buf[HEADER_SIZE..] == old(buf[HEADER_SIZE..])
    {
      buf[i] := h.prefix[i];
    }
    var n := h.sequence;
    buf[4], buf[5], buf[6], buf[7] := n / 0x100_0000, n / 0x1_0000 % 0x100, n / 0x100 % 0x100, n % 0x100;
    buf[8] := h.frameType;
    BigEndianRoundTrip(n);
    assert buf[4..8] == BigEndian(n);
  }

  // ---------------------------------------------------------------- correlation prefixes

  function HexValue(c: char): Option<byte> {
    if '0' <= c <= '9' then Some(c as int - '0' as int)
    else if 'a' <= c <= 'f' then Some(c as int - 'a' as int + 10)
    else if 'A' <= c <= 'F' then Some(c as int - 'A' as int + 10)
    else None
  }

  /** hex.DecodeString on text of even length; None where it reports an error. */
  function HexDecode(s: string): (r: Option<seq<byte>>)
    requires |s| % 2 == 0
    ensures r.Some? ==> |r.value| == |s| / 2
  {
    if s == [] then Some([])
    else
      var hi, lo, rest := HexValue(s[0]), HexValue(s[1]), HexDecode(s[2..]);
      if hi.Some? && lo.Some? && rest.Some? && hi.value < 16 && lo.value < 16 then
        Some([hi.value * 16 + lo.value] + rest.value)
      else None
  }

  function WithoutHyphens(s: string): string {
    if s == [] then [] else (if s[0] == '-' then [] else [s[0]]) + WithoutHyphens(s[1..])
  }

  /** The four bytes that route a dispatch's frames; None where the source returns an error. */
  function CorrelationPrefix(id: string): Option<Prefix> {
    var raw := WithoutHyphens(id);
    if |raw| < 8 then None
    else match HexDecode(raw[0..8])
      case None => None
      case Some(bs) => Some(bs)
  }

  function HexDigit(n: nat): char
    requires n < 16
  {
    if n < 10 then '0' + n as char else 'a' + (n - 10) as char
  }

  function HexEncode(bs: seq<byte>): (s: string)
    ensures |s| == 2 * |bs|
  {
    if bs == [] then [] else [HexDigit(bs[0] / 16), HexDigit(bs[0] % 16)] + HexEncode(bs[1..])
  }

  /** The canonical text of a UUID, as the id generators print it. */
  function Uuid(bs: seq<byte>): string
    requires |bs| == 16
  {
    HexEncode(bs[0..4]) + "-" + HexEncode(bs[4..6]) + "-" + HexEncode(bs[6..8]) + "-"
    + HexEncode(bs[8..10]) + "-" + HexEncode(bs[10..16])
  }

  lemma {:induction false} HexRoundTrip(bs: seq<byte>)
    ensures HexDecode(HexEncode(bs)) == Some(bs)
    ensures '-' !in HexEncode(bs)
  {
    if bs != [] {
      HexRoundTrip(bs[1..]);
      assert HexEncode(bs)[2..] == HexEncode(bs[1..]);
      assert bs == [bs[0]] + bs[1..];
    }
  }

  lemma {:induction false} WithoutHyphensConcat(s: string, t: string)
    ensures WithoutHyphens(s + t) == WithoutHyphens(s) + WithoutHyphens(t)
  {
    if s == [] {
      assert s + t == t;
    } else {
      var head := if s[0] == '-' then [] else [s[0]];
      assert (s + t)[0] == s[0] && (s + t)[1..] == s[1..] + t;
      WithoutHyphensConcat(s[1..], t);
      assert head + (WithoutHyphens(s[1..]) + WithoutHyphens(t)) == (head + WithoutHyphens(s[1..])) + WithoutHyphens(t);
    }
  }

  lemma {:induction false} WithoutHyphensSame(s: string)
    requires '-' !in s
    ensures WithoutHyphens(s) == s
  {
    if s != [] {
      WithoutHyphensSame(s[1..]);
    }
  }

  predicate IsHexDigit(c: char) {
    '0' <= c <= '9' || 'a' <= c <= 'f' || 'A' <= c <= 'F'
  }

  predicate AllHex(s: string) {
    forall i :: 0 <= i < |s| ==> IsHexDigit(s[i])
  }

  lemma AllHexTail(s: string)
    requires |s| >= 2
    ensures AllHex(s) <==> IsHexDigit(s[0]) && IsHexDigit(s[1]) && AllHex(s[2..])
  {
    assert forall i :: 2 <= i < |s| ==> s[i] == s[2..][i - 2];
    if AllHex(s[2..]) {
      forall i | 2 <= i < |s| ensures IsHexDigit(s[i]) {
        assert IsHexDigit(s[2..][i - 2]);
      }
    }
  }

  lemma {:induction false} HexDecodes(s: string)
    requires |s| % 2 == 0
    ensures HexDecode(s).Some? <==> AllHex(s)
  {
    if s != [] {
      HexDecodes(s[2..]);
      AllHexTail(s);
      HexDigitDecodes(s[0]);
      HexDigitDecodes(s[1]);
    }
  }

  lemma HexDigitDecodes(c: char)
    ensures HexValue(c).Some? <==> IsHexDigit(c)
    ensures HexValue(c).Some? ==> HexValue(c).value < 16
  {
  }

  function UpperDigit(c: char): char {
    if 'a' <= c <= 'f' then (c as int - 'a' as int + 'A' as int) as char else c
  }

  function UpperHex(s: string): string {
    seq(|s|, i requires 0 <= i < |s| => UpperDigit(s[i]))
  }

  lemma {:induction false} HexIgnoresCase(s: string)
    requires |s| % 2 == 0
    ensures HexDecode(UpperHex(s)) == HexDecode(s)
  {
    if s != [] {
      assert UpperHex(s)[2..] == UpperHex(s[2..]);
      HexIgnoresCase(s[2..]);
    }
  }

  lemma {:induction false} HyphensIgnoreCase(s: string)
    ensures WithoutHyphens(UpperHex(s)) == UpperHex(WithoutHyphens(s))
  {
    if s != [] {
      assert UpperHex(s)[1..] == UpperHex(s[1..]);
      HyphensIgnoreCase(s[1..]);
    }
  }

  /** Upper-case digits mean what lower-case ones do. */
  lemma PrefixIgnoresCase(id: string)
    ensures CorrelationPrefix(UpperHex(id)) == CorrelationPrefix(id)
  {
    HyphensIgnoreCase(id);
    var raw := WithoutHyphens(id);
    if |raw| >= 8 {
      assert UpperHex(raw)[0..8] == UpperHex(raw[0..8]);
      HexIgnoresCase(raw[0..8]);
    }
  }

  /** An id has a prefix exactly if, hyphens aside, it starts with eight hexadecimal digits. */
  lemma PrefixIff(id: string)
    ensures CorrelationPrefix(id).Some? <==>
            |WithoutHyphens(id)| >= 8 && forall i :: 0 <= i < 8 ==> IsHexDigit(WithoutHyphens(id)[i])
  {
    var raw := WithoutHyphens(id);
    if |raw| >= 8 {
      HexDecodes(raw[0..8]);
      assert forall i :: 0 <= i < 8 ==> raw[0..8][i] == raw[i];
    }
  }

  /** "The first 4 bytes of the UUID": the prefix of every canonical UUID is its leading bytes. */
  lemma PrefixOfUuid(bs: seq<byte>)
    requires |bs| == 16
    ensures CorrelationPrefix(Uuid(bs)) == Some(bs[0..4])
  {
    var head := HexEncode(bs[0..4]);
    var tail := "-" + HexEncode(bs[4..6]) + "-" + HexEncode(bs[6..8]) + "-"
                + HexEncode(bs[8..10]) + "-" + HexEncode(bs[10..16]);
    assert Uuid(bs) == head + tail;
    WithoutHyphensConcat(head, tail);
    HexRoundTrip(bs[0..4]);
    WithoutHyphensSame(head);
    assert WithoutHyphens(Uuid(bs))[0..8] == head;
  }

  // ---------------------------------------------------------------- sending a file

  function FileFrame(prefix: Prefix, sequence: uint32, chunk: seq<byte>): seq<byte> {
    EncodeHeader(Header(prefix, sequence, FRAME_FILE_CONTENT)) + chunk
  }

  /** seq++ on a uint32. */
  function NextSequence(n: uint32): uint32 {
    if n == 0xFFFF_FFFF then 0 else n + 1
  }

  /** The frames for data from offset off on, the first of them numbered n. */
  function FramesFrom(prefix: Prefix, data: seq<byte>, off: nat, n: uint32): seq<seq<byte>>
    decreases |data| - off
  {
    if off >= |data| then []
    else [FileFrame(prefix, n, data[off..Min(off + CHUNK_SIZE, |data|)])]
         + FramesFrom(prefix, data, off + CHUNK_SIZE, NextSequence(n))
  }

  method BuildFrame(prefix: Prefix, sequence: uint32, chunk: seq<byte>) returns (frame: seq<byte>)
    ensures frame == EncodeHeader(Header(prefix, sequence, FRAME_FILE_CONTENT)) + chunk
  {
    var buf := new byte[HEADER_SIZE + |chunk|];
    EncodeHeaderInto(buf, Header(prefix, sequence, FRAME_FILE_CONTENT));
    forall k | 0 <= k < |chunk| {
      buf[HEADER_SIZE + k] := chunk[k];
    }
    assert buf[HEADER_SIZE..] == chunk;
    assert buf[..] == buf[..HEADER_SIZE] + buf[HEADER_SIZE..];
    frame := buf[..];
  }

  lemma FramesFromUnfold(prefix: Prefix, data: seq<byte>, off: nat, n: uint32, sent: seq<seq<byte>>)
    requires off < |data|
    ensures var chunk := data[off..Min(off + CHUNK_SIZE, |data|)];
            sent + FramesFrom(prefix, data, off, n) ==
            (sent + [FileFrame(prefix, n, chunk)]) + FramesFrom(prefix, data, off + CHUNK_SIZE, NextSequence(n))
  {
  }

  /** streamFileContent: one frame per chunk; an id with no prefix sends nothing. */
  method StreamFileContent(id: string, data: seq<byte>) returns (frames: seq<seq<byte>>)
    ensures frames == match CorrelationPrefix(id)
                      case None => []
                      case Some(prefix) => FramesFrom(prefix, data, 0, 0)
  {
    var parsed := CorrelationPrefix(id);
    if parsed.None? {
      return [];
    }
    frames := StreamChunks(parsed.value, data);
  }

  method StreamChunks(prefix: Prefix, data: seq<byte>) returns (frames: seq<seq<byte>>)
    ensures frames == FramesFrom(prefix, data, 0, 0)
  {
    frames := [];
    var sequence: uint32 := 0;
    var off: nat := 0;
    while off < |data|
      invariant frames + FramesFrom(prefix, data, off, sequence) == FramesFrom(prefix, data, 0, 0)
      decreases |data| - off
    {
      var end := off + CHUNK_SIZE;
      if end > |data| {
        end := |data|;
      }
      FramesFromUnfold(prefix, data, off, sequence, frames);
      var frame := BuildFrame(prefix, sequence, data[off..end]);
      frames := frames + [frame];
      sequence := NextSequence(sequence);
      off := off + CHUNK_SIZE;
    }
  }

  // ---------------------------------------------------------------- receiving it

  datatype Arrival = Arrival(header: Header, payload: seq<byte>)

  /** routeBinaryFrame for one registered prefix: the frames it passes on, decoded; frames that are
      too short or carry another prefix are not passed on. */
  function Demux(frames: seq<seq<byte>>, prefix: Prefix): seq<Arrival> {
    if frames == [] then []
    else
      var f := frames[0];
      (if |f| >= HEADER_SIZE && DecodeHeader(f).prefix == prefix then [Arrival(DecodeHeader(f), f[HEADER_SIZE..])] else [])
      + Demux(frames[1..], prefix)
  }

  /** A frame is passed on exactly if it is long enough for a header and starts with the prefix. */
  lemma RoutedIff(frame: seq<byte>, prefix: Prefix)
    ensures Demux([frame], prefix) != [] <==> |frame| >= 9 && frame[..4] == prefix
    ensures Demux([frame], prefix) != [] ==> |Demux([frame], prefix)| == 1 && Demux([frame], prefix)[0].payload == frame[9..]
  {
    assert [frame][1..] == [] && Demux([], prefix) == [];
    assert |frame| >= 9 ==> frame[0..4] == frame[..4];
  }

  /** What handleRead's callback accumulates. */
  function Reassembled(arrivals: seq<Arrival>): seq<byte> {
    if arrivals == [] then []
    else (if arrivals[0].header.frameType == FRAME_FILE_CONTENT then arrivals[0].payload else [])
         + Reassembled(arrivals[1..])
  }

  method Reassemble(arrivals: seq<Arrival>) returns (streamed: seq<byte>)
    ensures streamed == Reassembled(arrivals)
  {
    streamed := [];
    for i := 0 to |arrivals|
      invariant streamed + Reassembled(arrivals[i..]) == Reassembled(arrivals)
    {
      if arrivals[i].header.frameType == FRAME_FILE_CONTENT {
        streamed := streamed + arrivals[i].payload;
      }
    }
  }

  /** Frames of other types under the same prefix are not part of the file. */
  lemma {:induction false} OtherTypesAreSkipped(before: seq<Arrival>, other: Arrival, after: seq<Arrival>)
    requires other.header.frameType != 4
    ensures Reassembled(before + [other] + after) == Reassembled(before + after)
  {
    if before == [] {
      assert before + [other] + after == [other] + after && before + after == after;
      assert ([other] + after)[1..] == after;
    } else {
      assert (before + [other] + after)[1..] == before[1..] + [other] + after;
      assert (before + after)[1..] == before[1..] + after;
      OtherTypesAreSkipped(before[1..], other, after);
    }
  }

  function ChunkCount(length: nat): nat {
    (length + CHUNK_SIZE - 1) / CHUNK_SIZE
  }

  lemma FileFrameArrives(prefix: Prefix, n: uint32, chunk: seq<byte>)
    ensures var f := FileFrame(prefix, n, chunk);
            && |f| >= HEADER_SIZE
            && DecodeHeader(f) == Header(prefix, n, FRAME_FILE_CONTENT)
            && f[HEADER_SIZE..] == chunk
  {
    HeaderRoundTrip(Header(prefix, n, FRAME_FILE_CONTENT), chunk);
  }

  lemma FirstFrameArrives(prefix: Prefix, data: seq<byte>, off: nat, n: uint32)
    requires off < |data|
    ensures var chunk := data[off..Min(off + CHUNK_SIZE, |data|)];
            var rest := FramesFrom(prefix, data, off + CHUNK_SIZE, NextSequence(n));
            && |FramesFrom(prefix, data, off, n)| == 1 + |rest|
            && Demux(FramesFrom(prefix, data, off, n), prefix) ==
               [Arrival(Header(prefix, n, FRAME_FILE_CONTENT), chunk)] + Demux(rest, prefix)
  {
    var chunk := data[off..Min(off + CHUNK_SIZE, |data|)];
    var rest := FramesFrom(prefix, data, off + CHUNK_SIZE, NextSequence(n));
    FileFrameArrives(prefix, n, chunk);
    assert ([FileFrame(prefix, n, chunk)] + rest)[1..] == rest;
  }

  lemma {:induction false} FramesJoin(prefix: Prefix, data: seq<byte>, off: nat, n: uint32)
    ensures Reassembled(Demux(FramesFrom(prefix, data, off, n), prefix)) == data[Min(off, |data|)..]
    decreases |data| - off
  {
    if off < |data| {
      var rest := Demux(FramesFrom(prefix, data, off + CHUNK_SIZE, NextSequence(n)), prefix);
      var first := Arrival(Header(prefix, n, FRAME_FILE_CONTENT), data[off..Min(off + CHUNK_SIZE, |data|)]);
      FirstFrameArrives(prefix, data, off, n);
      FramesJoin(prefix, data, off + CHUNK_SIZE, NextSequence(n));
      assert ([first] + rest)[1..] == rest;
      assert first.payload + data[Min(off + CHUNK_SIZE, |data|)..] == data[off..];
    }
  }

  lemma NextSequenceAdvances(n: uint32, k: nat)
    ensures (n + 0) % 0x1_0000_0000 == n
    ensures (NextSequence(n) + k) % 0x1_0000_0000 == (n + (k + 1)) % 0x1_0000_0000
  {
    if n == 0xFFFF_FFFF {
      assert n + (k + 1) == 0x1_0000_0000 + k;
    } else {
      assert NextSequence(n) + k == n + (k + 1);
    }
  }

  lemma {:induction false} FramesNumbered(prefix: Prefix, data: seq<byte>, off: nat, n: uint32, k: nat)
    requires k < |Demux(FramesFrom(prefix, data, off, n), prefix)|
    ensures Demux(FramesFrom(prefix, data, off, n), prefix)[k].header
         == Header(prefix, (n + k) % 0x1_0000_0000, FRAME_FILE_CONTENT)
    decreases |data| - off
  {
    if off < |data| {
      FirstFrameArrives(prefix, data, off, n);
      if k == 0 {
        NextSequenceAdvances(n, 0);
      } else {
        FramesNumbered(prefix, data, off + CHUNK_SIZE, NextSequence(n), k - 1);
        NextSequenceAdvances(n, k - 1);
        var rest := Demux(FramesFrom(prefix, data, off + CHUNK_SIZE, NextSequence(n)), prefix);
        assert Demux(FramesFrom(prefix, data, off, n), prefix)[k] == rest[k - 1];
      }
    }
  }

  lemma {:induction false} FramesCounted(prefix: Prefix, data: seq<byte>, off: nat, n: uint32)
    ensures |Demux(FramesFrom(prefix, data, off, n), prefix)| == |FramesFrom(prefix, data, off, n)|
         == ChunkCount(if off <= |data| then |data| - off else 0)
    decreases |data| - off
  {
    if off < |data| {
      FirstFrameArrives(prefix, data, off, n);
      FramesCounted(prefix, data, off + CHUNK_SIZE, NextSequence(n));
    }
  }

  /** Frames carrying another prefix do not disturb a stream, in any interleaving.  schedule says,
      frame by frame, which of the two senders goes next while both have frames left. */
  function Interleave<T>(a: seq<T>, b: seq<T>, schedule: seq<bool>): seq<T>
    decreases |a| + |b|
  {
    if a == [] then b
    else if b == [] then a
    else if schedule == [] || schedule[0] then
      [a[0]] + Interleave(a[1..], b, if schedule == [] then [] else schedule[1..])
    else
      [b[0]] + Interleave(a, b[1..], schedule[1..])
  }

  ghost predicate Foreign(frames: seq<seq<byte>>, prefix: Prefix) {
    forall k :: 0 <= k < |frames| && |frames[k]| >= HEADER_SIZE ==> DecodeHeader(frames[k]).prefix != prefix
  }

  lemma {:induction false} DemuxForeign(frames: seq<seq<byte>>, prefix: Prefix)
    requires Foreign(frames, prefix)
    ensures Demux(frames, prefix) == []
  {
    if frames != [] {
      DemuxForeign(frames[1..], prefix);
    }
  }

  lemma {:induction false} DemuxInterleaved(a: seq<seq<byte>>, b: seq<seq<byte>>, schedule: seq<bool>, prefix: Prefix)
    requires Foreign(b, prefix)
    ensures Demux(Interleave(a, b, schedule), prefix) == Demux(a, prefix)
    ensures Demux(Interleave(b, a, schedule), prefix) == Demux(a, prefix)
    decreases |a| + |b|
  {
    if a == [] || b == [] {
      DemuxForeign(b, prefix);
    } else {
      var rest := if schedule == [] then [] else schedule[1..];
      DemuxInterleaved(a[1..], b, rest, prefix);
      DemuxInterleaved(a, b[1..], rest, prefix);
      var m, w := Interleave(a, b, schedule), Interleave(b, a, schedule);
      if schedule == [] || schedule[0] {
        assert m[1..] == Interleave(a[1..], b, rest);
        assert w[1..] == Interleave(b[1..], a, rest);
      } else {
        assert m[1..] == Interleave(a, b[1..], rest);
        assert w[1..] == Interleave(b, a[1..], rest);
      }
    }
  }

  lemma {:induction false} FramesCarryPrefix(prefix: Prefix, data: seq<byte>, off: nat, n: uint32, other: Prefix)
    requires prefix != other
    ensures Foreign(FramesFrom(prefix, data, off, n), other)
    decreases |data| - off
  {
    if off < |data| {
      FileFrameArrives(prefix, n, data[off..Min(off + CHUNK_SIZE, |data|)]);
      FramesCarryPrefix(prefix, data, off + CHUNK_SIZE, NextSequence(n), other);
    }
  }

  /** At most 64 KiB of the data. */
  function Slice(data: seq<byte>, from: nat): seq<byte> {
    if from >= |data| then [] else data[from..Min(from + 65536, |data|)]
  }

  lemma {:induction false} FramesSliced(prefix: Prefix, data: seq<byte>, off: nat, n: uint32, k: nat, at: nat)
    requires k < |Demux(FramesFrom(prefix, data, off, n), prefix)| && at == off + 65536 * k
    ensures Demux(FramesFrom(prefix, data, off, n), prefix)[k].payload == Slice(data, at)
    decreases |data| - off
  {
    if off < |data| {
      FirstFrameArrives(prefix, data, off, n);
      if k > 0 {
        FramesSliced(prefix, data, off + CHUNK_SIZE, NextSequence(n), k - 1, at);
        var rest := Demux(FramesFrom(prefix, data, off + CHUNK_SIZE, NextSequence(n)), prefix);
        assert Demux(FramesFrom(prefix, data, off, n), prefix)[k] == rest[k - 1];
      }
    }
  }

  /** A file read round trips: the arrivals for its prefix join to the original bytes, and they are
      ceil(length / chunk) frames numbered from 0, wrapping only after 2^32 of them. */
  ghost predicate ArrivesWhole(prefix: Prefix, data: seq<byte>, arrivals: seq<Arrival>) {
    && Reassembled(arrivals) == data
    && |arrivals| == (|data| + 65535) / 65536
    && forall k :: 0 <= k < |arrivals| ==>
         && arrivals[k].payload == Slice(data, 65536 * k)
         && arrivals[k].header.prefix == prefix
         && arrivals[k].header.frameType == 4
         && arrivals[k].header.sequence == k % 0x1_0000_0000
  }

  lemma FileArrives(prefix: Prefix, data: seq<byte>)
    ensures ArrivesWhole(prefix, data, Demux(FramesFrom(prefix, data, 0, 0), prefix))
  {
    FramesJoin(prefix, data, 0, 0);
    FramesCounted(prefix, data, 0, 0);
    var arrivals := Demux(FramesFrom(prefix, data, 0, 0), prefix);
    forall k: nat | k < |arrivals|
      ensures arrivals[k].header == Header(prefix, k % 0x1_0000_0000, FRAME_FILE_CONTENT)
      ensures arrivals[k].payload == Slice(data, 65536 * k)
    {
      FramesSliced(prefix, data, 0, 0, k, 65536 * k);
      FramesNumbered(prefix, data, 0, 0, k);
    }
  }

  /** The same whatever other frames are interleaved with it on the wire. */
  lemma FileRoundTrip(prefix: Prefix, data: seq<byte>, others: seq<seq<byte>>, schedule: seq<bool>)
    requires Foreign(others, prefix)
    ensures ArrivesWhole(prefix, data, Demux(Interleave(FramesFrom(prefix, data, 0, 0), others, schedule), prefix))
  {
    FileArrives(prefix, data);
    DemuxInterleaved(FramesFrom(prefix, data, 0, 0), others, schedule, prefix);
  }

  /** Two reads in flight at once on one device do not mix, provided their prefixes differ. */
  lemma ConcurrentReads(p: Prefix, q: Prefix, first: seq<byte>, second: seq<byte>, schedule: seq<bool>)
    requires p != q
    ensures var wire := Interleave(FramesFrom(p, first, 0, 0), FramesFrom(q, second, 0, 0), schedule);
            Reassembled(Demux(wire, p)) == first && Reassembled(Demux(wire, q)) == second
  {
    FramesCarryPrefix(p, first, 0, 0, q);
    FramesCarryPrefix(q, second, 0, 0, p);
    FileRoundTrip(p, first, FramesFrom(q, second, 0, 0), schedule);
    FramesJoin(q, second, 0, 0);
    DemuxInterleaved(FramesFrom(q, second, 0, 0), FramesFrom(p, first, 0, 0), schedule, q);
    assert second[0..] == second;
  }
}
