/**
 Reassembly of Opus packets from an Ogg byte stream.

 Framing follows section 6 of RFC 3533: a page is a 27-byte header, a table of lacing
 values and the laced data; a packet is a run of 255-valued lacings closed by a smaller
 one. OpusHead and OpusTags are the header packets of section 5 of RFC 7845.
 */
module Ogg {
  import opened Prelude

  type Byte = x: int | 0 <= x < 256
  type Bytes = seq<Byte>

  const MAX_PACKET := 65536
  const PAGE_HEADER := 27

  const CAPTURE: Bytes := [0x4F, 0x67, 0x67, 0x53]
  const OPUS_HEAD: Bytes := [0x4F, 0x70, 0x75, 0x73, 0x48, 0x65, 0x61, 0x64]
  const OPUS_TAGS: Bytes := [0x4F, 0x70, 0x75, 0x73, 0x54, 0x61, 0x67, 0x73]

  datatype Failure =
    | UnexpectedEnd | MissingHeader | InvalidStream | InvalidContinuation
    | Oversized | AudioBeforeHeader | EmptyAudio | SendFailed

  datatype Kind = Head | Tags | Audio

  function OpusKind(packet: Bytes): Kind {
    if OPUS_HEAD <= packet then Head else if OPUS_TAGS <= packet then Tags else Audio
  }

  /** What a completed packet is, and whether sending it succeeds. */
  datatype Sink = Sink(kind: Bytes -> Kind, send: Bytes -> bool)

  /** The frames handed to `send`, and why reading stopped (None: clean end of stream). */
  datatype Reading = Reading(sent: seq<Bytes>, failure: Option<Failure>)

  /** Reader state between two lacing values. */
  datatype Reader = Reader(packet: Bytes, seenHead: bool)

  const FRESH := Reader([], false)

  // ---------------------------------------------------------------------------
  // What the reader does with a stream, page by page and lacing by lacing
  // ---------------------------------------------------------------------------

  datatype Step = Continue(reader: Reader, sent: seq<Bytes>) | Stop(sent: seq<Bytes>, failure: Failure)

  /** A packet has just been completed. */
  function Complete(packet: Bytes, seenHead: bool, sink: Sink): Step {
    match sink.kind(packet)
    case Head => Continue(Reader([], true), [])
    case Tags => Continue(Reader([], seenHead), [])
    case Audio =>
      if !seenHead then Stop([], AudioBeforeHeader)
      else if packet == [] then Stop([], EmptyAudio)
      else if !sink.send(packet) then Stop([packet], SendFailed)
      else Continue(Reader([], seenHead), [packet])
  }

  /** One laced piece of a packet has arrived in full. */
  function Accept(piece: Bytes, reader: Reader, sink: Sink): Step {
    if |reader.packet| + |piece| > MAX_PACKET then Stop([], Oversized)
    else if |piece| == 255 then Continue(reader.(packet := reader.packet + piece), [])
    else Complete(reader.packet + piece, reader.seenHead, sink)
  }

  /** The lacing value `size` at position pos of the data. */
  function Lacing(data: Bytes, pos: nat, size: Byte, reader: Reader, sink: Sink): Step
    requires pos <= |data|
  {
    if |reader.packet| + size > MAX_PACKET then Stop([], Oversized)
    else if |data| - pos < size then Stop([], UnexpectedEnd)
    else Accept(data[pos..pos + size], reader, sink)
  }

  /** The same step, after some frames already sent. */
  function After(sent: seq<Bytes>, step: Step): Step {
    match step
    case Stop(more, failure) => Stop(sent + more, failure)
    case Continue(reader, more) => Continue(reader, sent + more)
  }

  /** The lacing values at k, k+1, .. end-1, whose data starts at pos. */
  function Lacings(data: Bytes, k: nat, end: nat, pos: nat, reader: Reader, sink: Sink): Step
    requires k <= end <= pos <= |data|
    decreases end - k
  {
    if k == end then Continue(reader, [])
    else
      match Lacing(data, pos, data[k], reader, sink)
      case Stop(sent, failure) => Stop(sent, failure)
      case Continue(next, sent) => After(sent, Lacings(data, k + 1, end, pos + data[k], next, sink))
  }

  function Total(data: Bytes, k: nat, end: nat): (sum: nat)
    requires k <= end <= |data|
    decreases end - k
  {
    if k == end then 0 else data[k] + Total(data, k + 1, end)
  }

  lemma {:induction false} LacingsFit(data: Bytes, k: nat, end: nat, pos: nat, reader: Reader, sink: Sink)
    requires k <= end <= pos <= |data| && Lacings(data, k, end, pos, reader, sink).Continue?
    ensures pos + Total(data, k, end) <= |data|
    decreases end - k
  {
    if k < end {
      LacingsFit(data, k + 1, end, pos + data[k], Lacing(data, pos, data[k], reader, sink).reader, sink);
    }
  }

  function HeaderFailure(data: Bytes, pos: nat, reader: Reader): (failure: Option<Failure>)
    requires pos <= |data|
    ensures failure == None ==> |data| - pos >= PAGE_HEADER && data[pos + 26] <= |data| - pos - PAGE_HEADER
  {
    if |data| - pos < PAGE_HEADER then Some(UnexpectedEnd)
    else if data[pos..pos + 4] != CAPTURE || data[pos + 4] != 0 then Some(InvalidStream)
    else if (data[pos + 5] % 2 == 1) != (reader.packet != []) then Some(InvalidContinuation)
    else if |data| - pos - PAGE_HEADER < data[pos + 26] then Some(UnexpectedEnd)
    else None
  }

  /** One page at position pos: what it does to the reader, and where it ends. */
  function ReadPage(data: Bytes, pos: nat, reader: Reader, sink: Sink): (result: (Step, nat))
    requires pos <= |data|
    ensures result.0.Continue? ==> pos + PAGE_HEADER <= result.1 <= |data|
  {
    match HeaderFailure(data, pos, reader)
    case Some(failure) => (Stop([], failure), pos)
    case None =>
      var table := pos + PAGE_HEADER;
      var body := table + data[pos + 26];
      var step := Lacings(data, table, body, body, reader, sink);
      if step.Stop? then (step, pos)
      else
        LacingsFit(data, table, body, body, reader, sink);
        (step, body + Total(data, table, body))
  }

  /** The whole stream from one reader state. */
  function Read(data: Bytes, pos: nat, reader: Reader, sink: Sink): Reading
    requires pos <= |data|
    decreases |data| - pos
  {
    if pos == |data| then
      Reading([], if reader.packet != [] then Some(UnexpectedEnd)
                  else if !reader.seenHead then Some(MissingHeader)
                  else None)
    else
      var (step, next) := ReadPage(data, pos, reader, sink);
      if step.Stop? then Reading(step.sent, Some(step.failure))
      else
        var rest := Read(data, next, step.reader, sink);
        Reading(step.sent + rest.sent, rest.failure)
  }

  lemma AfterAfter(a: seq<Bytes>, b: seq<Bytes>, step: Step)
    ensures After(a, After(b, step)) == After(a + b, step)
    ensures After([], step) == step
  {
    assert a + (b + step.sent) == (a + b) + step.sent;
    assert [] + step.sent == step.sent;
  }

  lemma LacingsNext(data: Bytes, k: nat, end: nat, pos: nat, reader: Reader, sink: Sink, sent: seq<Bytes>)
    requires k < end <= pos <= |data|
    ensures var first := Lacing(data, pos, data[k], reader, sink);
      After(sent, Lacings(data, k, end, pos, reader, sink)) ==
        if first.Stop? then Stop(sent + first.sent, first.failure)
        else After(sent + first.sent, Lacings(data, k + 1, end, pos + data[k], first.reader, sink))
  {
    var first := Lacing(data, pos, data[k], reader, sink);
    if first.Continue? {
      AfterAfter(sent, first.sent, Lacings(data, k + 1, end, pos + data[k], first.reader, sink));
    }
  }

  /** A completed packet is kept back as a header, sent as audio, or refused. */
  method TakePacket(packet: Bytes, seenHead: bool, sink: Sink) returns (step: Step)
    ensures step == Complete(packet, seenHead, sink)
  {
    var head, sent := seenHead, [];
    if sink.kind(packet) == Head {
      head := true;
    } else if sink.kind(packet) != Tags {
      if !head {
        return Stop([], AudioBeforeHeader);
      }
      if |packet| == 0 {
        return Stop([], EmptyAudio);
      }
      sent := [packet];
      if !sink.send(packet) {
        return Stop(sent, SendFailed);
      }
    }
    return Continue(Reader([], head), sent);
  }

  /** One lacing value: its data joins the packet, which a value below 255 completes. */
  method TakeLacing(data: Bytes, pos: nat, size: Byte, reader: Reader, sink: Sink) returns (step: Step)
    requires pos <= |data|
    ensures step == Lacing(data, pos, size, reader, sink)
  {
    if |reader.packet| + size > MAX_PACKET {
      return Stop([], Oversized);
    }
    if |data| - pos < size {
      return Stop([], UnexpectedEnd);
    }
    var packet := reader.packet + data[pos..pos + size];
    if size == 255 {
      return Continue(Reader(packet, reader.seenHead), []);
    }
    step := TakePacket(packet, reader.seenHead, sink);
  }

  /** The lacing loop of one page: the packet buffer grows across lacing values and page ends. */
  method TakeLacings(data: Bytes, table: nat, body: nat, reader: Reader, sink: Sink)
    returns (step: Step, pos: nat)
    requires table <= body <= |data|
    ensures step == Lacings(data, table, body, body, reader, sink)
    ensures step.Continue? ==> pos == body + Total(data, table, body)
  {
    var now, sent := reader, [];
    pos := body;
    var k := table;
    ghost var goal, last := Lacings(data, table, body, body, reader, sink), body + Total(data, table, body);
    AfterAfter([], [], goal);
    while k < body
      invariant table <= k <= body <= pos <= |data|
      invariant pos + Total(data, k, body) == last
      invariant goal == After(sent, Lacings(data, k, body, pos, now, sink))
    {
      var taken := TakeLacing(data, pos, data[k], now, sink);
      LacingsNext(data, k, body, pos, now, sink, sent);
      sent := sent + taken.sent;
      if taken.Stop? {
        return Stop(sent, taken.failure), pos;
      }
      now := taken.reader;
      pos := pos + data[k];
      k := k + 1;
    }
    return Continue(now, sent), pos;
  }

  /** One page: its header, then its lacings. */
  method TakePage(data: Bytes, pos: nat, reader: Reader, sink: Sink) returns (step: Step, next: nat)
    requires pos <= |data|
    ensures step == ReadPage(data, pos, reader, sink).0
    ensures step.Continue? ==> next == ReadPage(data, pos, reader, sink).1
  {
    if |data| - pos < PAGE_HEADER {
      return Stop([], UnexpectedEnd), pos;
    }
    if data[pos..pos + 4] != CAPTURE || data[pos + 4] != 0 {
      return Stop([], InvalidStream), pos;
    }
    if (data[pos + 5] % 2 != 0) != (|reader.packet| > 0) {
      return Stop([], InvalidContinuation), pos;
    }
    var count: int := data[pos + 26];
    if |data| - pos - PAGE_HEADER < count {
      return Stop([], UnexpectedEnd), pos;
    }
    step, next := TakeLacings(data, pos + PAGE_HEADER, pos + PAGE_HEADER + count, reader, sink);
  }

  /** The reader loop. */
  method OggPackets(data: Bytes, send: Bytes -> bool) returns (sent: seq<Bytes>, failure: Option<Failure>)
    ensures Reading(sent, failure) == Read(data, 0, FRESH, Sink(OpusKind, send))
  {
    var sink := Sink(OpusKind, send);
    var reader, pos := FRESH, 0;
    sent := [];
    while pos < |data|
      invariant pos <= |data|
      invariant var rest := Read(data, pos, reader, sink);
        Read(data, 0, FRESH, sink) == Reading(sent + rest.sent, rest.failure)
    {
      var step, next := TakePage(data, pos, reader, sink);
      if step.Stop? {
        return sent + step.sent, Some(step.failure);
      }
      ghost var rest := Read(data, next, step.reader, sink);
      assert sent + (step.sent + rest.sent) == (sent + step.sent) + rest.sent;
      sent, pos, reader := sent + step.sent, next, step.reader;
    }
    if |reader.packet| != 0 {
      return sent, Some(UnexpectedEnd);
    }
    if !reader.seenHead {
      return sent, Some(MissingHeader);
    }
    return sent, None;
  }
}
