/**
 Ogg streams as they are written, and what the reader makes of them: whole, or cut at any byte.
 */
module OggStreams {
  import opened Prelude
  import opened Ogg

  // ---------------------------------------------------------------------------
  // Writing: packets, lacing and pages (RFC 3533, section 6)
  // ---------------------------------------------------------------------------

  /** A packet as laced pieces: full 255-byte pieces and one shorter, possibly empty, last piece. */
  ghost function Pieces(packet: Bytes): (pieces: seq<Bytes>)
    ensures forall p | p in pieces :: |p| <= 255
  {
    if |packet| < 255 then [packet] else [packet[..255]] + Pieces(packet[255..])
  }

  ghost function AllPieces(packets: seq<Bytes>): seq<Bytes> {
    if packets == [] then [] else Pieces(packets[0]) + AllPieces(packets[1..])
  }

  /** `bookkeeping` is granule position, serial, sequence number and checksum: the reader skips them. */
  datatype Page = Page(flags: Byte, bookkeeping: Bytes, pieces: seq<Bytes>)

  ghost predicate WellFormed(page: Page) {
    |page.bookkeeping| == 20 && |page.pieces| <= 255 && forall p | p in page.pieces :: |p| <= 255
  }

  ghost function Sizes(pieces: seq<Bytes>): (sizes: seq<Byte>)
    requires forall p | p in pieces :: |p| <= 255
    ensures |sizes| == |pieces|
  {
    seq(|pieces|, k requires 0 <= k < |pieces| => assert pieces[k] in pieces; |pieces[k]|)
  }

  ghost function Concat(pieces: seq<Bytes>): Bytes {
    if pieces == [] then [] else pieces[0] + Concat(pieces[1..])
  }

  ghost function Header(page: Page): (header: Bytes)
    requires WellFormed(page)
    ensures |header| == PAGE_HEADER
  {
    CAPTURE + [0, page.flags] + page.bookkeeping + [|page.pieces|]
  }

  ghost function Encode(page: Page): Bytes
    requires WellFormed(page)
  {
    Header(page) + Sizes(page.pieces) + Concat(page.pieces)
  }

  ghost function EncodeAll(pages: seq<Page>): Bytes
    requires forall p | p in pages :: WellFormed(p)
  {
    if pages == [] then [] else Encode(pages[0]) + EncodeAll(pages[1..])
  }

  ghost function PagePieces(pages: seq<Page>): seq<Bytes> {
    if pages == [] then [] else pages[0].pieces + PagePieces(pages[1..])
  }

  /** Whether a packet is open after the pieces, given whether one was open before. */
  ghost predicate OpenAfter(pieces: seq<Bytes>, open: bool) {
    if pieces == [] then open else |pieces[|pieces| - 1]| == 255
  }

  /** Each page's continuation flag tells whether it starts inside a packet. */
  ghost predicate Flagged(pages: seq<Page>, open: bool) {
    pages == [] ||
    ((pages[0].flags % 2 == 1 <==> open) && Flagged(pages[1..], OpenAfter(pages[0].pieces, open)))
  }

  /** The pages are a legal pagination of the packets. */
  ghost predicate Paginates(pages: seq<Page>, packets: seq<Bytes>) {
    && (forall p | p in pages :: WellFormed(p))
    && Flagged(pages, false)
    && PagePieces(pages) == AllPieces(packets)
  }

  /** A packet the reader takes: not empty, within the bound, and sent without error if it is audio. */
  ghost predicate Playable(packet: Bytes, sink: Sink) {
    packet != [] && |packet| <= MAX_PACKET && (sink.kind(packet) == Audio ==> sink.send(packet))
  }

  ghost function AudioOf(packets: seq<Bytes>, sink: Sink): seq<Bytes> {
    if packets == [] then []
    else (if sink.kind(packets[0]) == Audio then [packets[0]] else []) + AudioOf(packets[1..], sink)
  }

  // ---------------------------------------------------------------------------
  // Reading pieces, away from bytes and pages
  // ---------------------------------------------------------------------------

  ghost function Feed(pieces: seq<Bytes>, reader: Reader, sink: Sink): Step
    decreases |pieces|
  {
    if pieces == [] then Continue(reader, [])
    else
      match Accept(pieces[0], reader, sink)
      case Stop(sent, failure) => Stop(sent, failure)
      case Continue(next, sent) => After(sent, Feed(pieces[1..], next, sink))
  }

  lemma {:induction false} FeedAppend(a: seq<Bytes>, b: seq<Bytes>, reader: Reader, sink: Sink)
    ensures var first := Feed(a, reader, sink);
      Feed(a + b, reader, sink) ==
        if first.Stop? then first else After(first.sent, Feed(b, first.reader, sink))
    decreases |a|
  {
    if a == [] {
      assert a + b == b;
      AfterAfter([], [], Feed(b, reader, sink));
    } else {
      assert (a + b)[1..] == a[1..] + b;
      var first := Accept(a[0], reader, sink);
      if first.Continue? {
        FeedAppend(a[1..], b, first.reader, sink);
        var middle := Feed(a[1..], first.reader, sink);
        if middle.Continue? {
          AfterAfter(first.sent, middle.sent, Feed(b, middle.reader, sink));
        }
      }
    }
  }

  /** The reader holds part of a packet exactly when the last piece was a full one. */
  lemma {:induction false} FeedOpen(pieces: seq<Bytes>, reader: Reader, sink: Sink)
    requires Feed(pieces, reader, sink).Continue?
    ensures Feed(pieces, reader, sink).reader.packet != [] <==> OpenAfter(pieces, reader.packet != [])
    decreases |pieces|
  {
    if pieces != [] {
      FeedOpen(pieces[1..], Accept(pieces[0], reader, sink).reader, sink);
    }
  }

  /** One packet, whatever part of it the reader already holds. */
  lemma {:induction false} FeedPacket(done: Bytes, rest: Bytes, seenHead: bool, sink: Sink)
    requires |done| + |rest| <= MAX_PACKET
    ensures Feed(Pieces(rest), Reader(done, seenHead), sink) == Complete(done + rest, seenHead, sink)
    decreases |rest|
  {
    var pieces := Pieces(rest);
    if |rest| < 255 {
      assert pieces[1..] == [];
      AfterAfter([], [], Complete(done + rest, seenHead, sink));
      assert forall sent: seq<Bytes> :: sent + [] == sent;
    } else {
      assert pieces[1..] == Pieces(rest[255..]);
      assert (done + rest[..255]) + rest[255..] == done + rest;
      FeedPacket(done + rest[..255], rest[255..], seenHead, sink);
      AfterAfter([], [], Complete(done + rest, seenHead, sink));
    }
  }

  /** Packet by packet the reader sends exactly the audio and ends between packets. */
  lemma {:induction false} FeedPackets(packets: seq<Bytes>, seenHead: bool, sink: Sink)
    requires forall p | p in packets :: Playable(p, sink)
    requires seenHead || (packets != [] && sink.kind(packets[0]) == Head)
    ensures Feed(AllPieces(packets), Reader([], seenHead), sink) == Continue(Reader([], true), AudioOf(packets, sink))
    decreases |packets|
  {
    if packets != [] {
      var p := packets[0];
      assert p in packets && Playable(p, sink) && [] + p == p;
      FeedPacket([], p, seenHead, sink);
      FeedPackets(packets[1..], true, sink);
      FeedAppend(Pieces(p), AllPieces(packets[1..]), Reader([], seenHead), sink);
    }
  }

  // ---------------------------------------------------------------------------
  // From pieces to bytes
  // ---------------------------------------------------------------------------

  /** The lacing values at k and the data at pos spell out the pieces. */
  ghost predicate PiecesAt(data: Bytes, k: nat, pos: nat, pieces: seq<Bytes>)
    decreases |pieces|
  {
    pieces == [] ||
    (k < |data| && data[k] == |pieces[0]| && pos + |pieces[0]| <= |data|
     && data[pos..pos + |pieces[0]|] == pieces[0] && PiecesAt(data, k + 1, pos + |pieces[0]|, pieces[1..]))
  }

  lemma {:induction false} LacingsFeed(data: Bytes, k: nat, end: nat, pos: nat, pieces: seq<Bytes>,
        reader: Reader, sink: Sink)
    requires k <= end <= pos <= |data| && end - k == |pieces| && PiecesAt(data, k, pos, pieces)
    ensures Lacings(data, k, end, pos, reader, sink) == Feed(pieces, reader, sink)
    ensures Total(data, k, end) == |Concat(pieces)|
    decreases |pieces|
  {
    if pieces != [] {
      var first := Accept(pieces[0], reader, sink);
      LacingsFeed(data, k + 1, end, pos + data[k], pieces[1..], if first.Continue? then first.reader else reader, sink);
    }
  }

  lemma {:induction false} PiecesWritten(data: Bytes, k: nat, pos: nat, pieces: seq<Bytes>)
    requires k + |pieces| <= |data| && forall j | 0 <= j < |pieces| :: data[k + j] == |pieces[j]|
    requires pos + |Concat(pieces)| <= |data| && data[pos..pos + |Concat(pieces)|] == Concat(pieces)
    ensures PiecesAt(data, k, pos, pieces)
    decreases |pieces|
  {
    if pieces != [] {
      var n := |pieces[0]|;
      var rest := Concat(pieces[1..]);
      var here := data[pos..pos + |Concat(pieces)|];
      assert |Concat(pieces)| == n + |rest|;
      assert here[..n] == pieces[0] && here[n..] == rest;
      assert data[pos..pos + n] == here[..n];
      assert data[pos + n..pos + n + |rest|] == here[n..];
      forall j | 0 <= j < |pieces[1..]|
        ensures data[k + 1 + j] == |pieces[1..][j]|
      {
        assert data[k + (j + 1)] == |pieces[j + 1]|;
      }
      PiecesWritten(data, k + 1, pos + n, pieces[1..]);
    }
  }

  ghost predicate PageAt(data: Bytes, pos: nat, page: Page)
    requires WellFormed(page)
  {
    pos + |Encode(page)| <= |data| && data[pos..pos + |Encode(page)|] == Encode(page)
  }

  lemma Halves(data: Bytes, pos: nat, a: Bytes, b: Bytes)
    requires pos + |a| + |b| <= |data| && data[pos..pos + |a| + |b|] == a + b
    ensures data[pos..pos + |a|] == a && data[pos + |a|..pos + |a| + |b|] == b
  {
    var here := data[pos..pos + |a| + |b|];
    assert data[pos..pos + |a|] == here[..|a|];
    assert data[pos + |a|..pos + |a| + |b|] == here[|a|..];
  }

  lemma HeaderBytes(data: Bytes, pos: nat, page: Page)
    requires WellFormed(page) && pos + PAGE_HEADER <= |data| && data[pos..pos + PAGE_HEADER] == Header(page)
    ensures data[pos..pos + 4] == CAPTURE && data[pos + 4] == 0 && data[pos + 5] == page.flags
    ensures data[pos + 26] == |page.pieces|
  {
    var header, here := Header(page), data[pos..pos + PAGE_HEADER];
    assert header[..4] == CAPTURE && header[4] == 0 && header[5] == page.flags && header[26] == |page.pieces|;
    assert data[pos..pos + 4] == here[..4];
    assert data[pos + 4] == here[4] && data[pos + 5] == here[5] && data[pos + 26] == here[26];
  }

  lemma PageBytes(data: Bytes, pos: nat, page: Page)
    requires WellFormed(page) && PageAt(data, pos, page)
    ensures var table := pos + PAGE_HEADER;
      var n := |page.pieces|;
      && |Encode(page)| == PAGE_HEADER + n + |Concat(page.pieces)|
      && data[pos..pos + 4] == CAPTURE && data[pos + 4] == 0 && data[pos + 5] == page.flags && data[pos + 26] == n
      && (forall j | 0 <= j < n :: data[table + j] == |page.pieces[j]|)
      && data[table + n..table + n + |Concat(page.pieces)|] == Concat(page.pieces)
  {
    var sizes, n := Sizes(page.pieces), |page.pieces|;
    var table := pos + PAGE_HEADER;
    Halves(data, pos, Header(page) + sizes, Concat(page.pieces));
    Halves(data, pos, Header(page), sizes);
    HeaderBytes(data, pos, page);
    forall j | 0 <= j < n
      ensures data[table + j] == |page.pieces[j]|
    {
      assert data[table..table + n][j] == sizes[j];
    }
  }

  lemma PageLaced(data: Bytes, pos: nat, flags: Byte, pieces: seq<Bytes>, reader: Reader, sink: Sink)
    requires pos + PAGE_HEADER + |pieces| + |Concat(pieces)| <= |data|
    requires data[pos..pos + 4] == CAPTURE && data[pos + 4] == 0 && data[pos + 5] == flags && data[pos + 26] == |pieces|
    requires flags % 2 == 1 <==> reader.packet != []
    requires var body := pos + PAGE_HEADER + |pieces|;
      && (forall j | 0 <= j < |pieces| :: data[pos + PAGE_HEADER + j] == |pieces[j]|)
      && data[body..body + |Concat(pieces)|] == Concat(pieces)
    ensures var body := pos + PAGE_HEADER + |pieces|;
      && HeaderFailure(data, pos, reader) == None
      && Lacings(data, pos + PAGE_HEADER, body, body, reader, sink) == Feed(pieces, reader, sink)
      && Total(data, pos + PAGE_HEADER, body) == |Concat(pieces)|
  {
    var table, n := pos + PAGE_HEADER, |pieces|;
    PiecesWritten(data, table, table + n, pieces);
    LacingsFeed(data, table, table + n, table + n, pieces, reader, sink);
  }

  lemma ReadsLacings(data: Bytes, pos: nat, reader: Reader, sink: Sink)
    requires pos <= |data| && HeaderFailure(data, pos, reader) == None
    ensures var table := pos + PAGE_HEADER;
      var body := table + data[pos + 26];
      var step := Lacings(data, table, body, body, reader, sink);
      && ReadPage(data, pos, reader, sink).0 == step
      && (step.Continue? ==> ReadPage(data, pos, reader, sink).1 == body + Total(data, table, body))
  {
  }

  /** A well-formed page that is flagged correctly is read as its pieces. */
  lemma TakesPage(data: Bytes, pos: nat, page: Page, reader: Reader, sink: Sink)
    requires pos <= |data| && WellFormed(page) && PageAt(data, pos, page)
    requires page.flags % 2 == 1 <==> reader.packet != []
    ensures ReadPage(data, pos, reader, sink).0 == Feed(page.pieces, reader, sink)
    ensures Feed(page.pieces, reader, sink).Continue? ==>
      ReadPage(data, pos, reader, sink).1 == pos + |Encode(page)|
  {
    PageBytes(data, pos, page);
    PageLaced(data, pos, page.flags, page.pieces, reader, sink);
    ReadsLacings(data, pos, reader, sink);
  }

  lemma {:induction false} ReadPages(data: Bytes, pos: nat, pages: seq<Page>, reader: Reader, sink: Sink)
    requires forall p | p in pages :: WellFormed(p)
    requires pos <= |data| && data[pos..] == EncodeAll(pages)
    requires Flagged(pages, reader.packet != [])
    requires Feed(PagePieces(pages), reader, sink).Continue?
    ensures var fed := Feed(PagePieces(pages), reader, sink);
      Read(data, pos, reader, sink) == Reading(fed.sent,
        if fed.reader.packet != [] then Some(UnexpectedEnd)
        else if !fed.reader.seenHead then Some(MissingHeader) else None)
    decreases |pages|
  {
    if pages != [] {
      var page, rest := pages[0], pages[1..];
      var next := FirstPage(data, pos, pages, reader, sink);
      FeedAppend(page.pieces, PagePieces(rest), reader, sink);
      ReadPages(data, next, rest, Feed(page.pieces, reader, sink).reader, sink);
    }
  }

  lemma SplitData(data: Bytes, pos: nat, a: Bytes, b: Bytes)
    requires pos <= |data| && data[pos..] == a + b
    ensures pos + |a| <= |data| && data[pos..pos + |a|] == a && data[pos + |a|..] == b
  {
    assert data[pos..pos + |a|] == data[pos..][..|a|];
    assert data[pos + |a|..] == data[pos..][|a|..];
  }

  /** The first page of a legal stream is taken whole and leaves the rest legal. */
  lemma FirstPage(data: Bytes, pos: nat, pages: seq<Page>, reader: Reader, sink: Sink) returns (next: nat)
    requires pages != [] && forall p | p in pages :: WellFormed(p)
    requires pos <= |data| && data[pos..] == EncodeAll(pages)
    requires Flagged(pages, reader.packet != [])
    requires Feed(PagePieces(pages), reader, sink).Continue?
    ensures var page, rest := pages[0], pages[1..];
      && next == pos + |Encode(page)| <= |data| && data[next..] == EncodeAll(rest)
      && Feed(page.pieces, reader, sink).Continue?
      && ReadPage(data, pos, reader, sink) == (Feed(page.pieces, reader, sink), next)
      && Flagged(rest, Feed(page.pieces, reader, sink).reader.packet != [])
      && Feed(PagePieces(rest), Feed(page.pieces, reader, sink).reader, sink).Continue?
  {
    var page, rest := pages[0], pages[1..];
    next := pos + |Encode(page)|;
    FeedsFirst(pages, reader, sink);
    SplitData(data, pos, Encode(page), EncodeAll(rest));
    TakesPage(data, pos, page, reader, sink);
  }

  lemma FeedsFirst(pages: seq<Page>, reader: Reader, sink: Sink)
    requires pages != [] && forall p | p in pages :: WellFormed(p)
    requires Flagged(pages, reader.packet != []) && Feed(PagePieces(pages), reader, sink).Continue?
    ensures var page, rest := pages[0], pages[1..];
      && Feed(page.pieces, reader, sink).Continue?
      && Flagged(rest, Feed(page.pieces, reader, sink).reader.packet != [])
      && Feed(PagePieces(rest), Feed(page.pieces, reader, sink).reader, sink).Continue?
  {
    var page, rest := pages[0], pages[1..];
    FeedAppend(page.pieces, PagePieces(rest), reader, sink);
    FeedOpen(page.pieces, reader, sink);
  }

  // ---------------------------------------------------------------------------
  // Main results
  // ---------------------------------------------------------------------------

  /** Every legal pagination of a playable stream is read back as exactly its audio packets, in order. */
  lemma RoundTrip(packets: seq<Bytes>, pages: seq<Page>, send: Bytes -> bool)
    requires var sink := Sink(OpusKind, send);
      packets != [] && OpusKind(packets[0]) == Head && forall p | p in packets :: Playable(p, sink)
    requires Paginates(pages, packets)
    ensures var sink := Sink(OpusKind, send);
      Read(EncodeAll(pages), 0, FRESH, sink) == Reading(AudioOf(packets, sink), None)
  {
    var sink := Sink(OpusKind, send);
    FeedPackets(packets, false, sink);
    assert EncodeAll(pages)[0..] == EncodeAll(pages);
    ReadPages(EncodeAll(pages), 0, pages, FRESH, sink);
  }

  /** One lacing value before the cut is read alike, one across it ends the reading. */
  lemma LacingCut(data: Bytes, short: Bytes, pos: nat, size: Byte, reader: Reader, sink: Sink)
    requires pos <= |short| && short <= data
    ensures var cut := Lacing(short, pos, size, reader, sink);
      if pos + size <= |short| then cut == Lacing(data, pos, size, reader, sink) else cut.Stop? && cut.sent == []
  {
    if pos + size <= |short| {
      assert short[pos..pos + size] == data[pos..pos + size];
    }
  }

  /** One reading is the other, or stops early having sent part of it. */
  ghost predicate CutsTo(cut: Step, full: Step) {
    cut == full || (cut.Stop? && cut.sent <= full.sent)
  }

  lemma AfterCuts(sent: seq<Bytes>, cut: Step, full: Step)
    requires CutsTo(cut, full)
    ensures CutsTo(After(sent, cut), After(sent, full))
  {
  }

  lemma {:induction false} LacingsCut(data: Bytes, short: Bytes, k: nat, end: nat, pos: nat, reader: Reader, sink: Sink)
    requires k <= end <= pos <= |short| && short <= data
    ensures CutsTo(Lacings(short, k, end, pos, reader, sink), Lacings(data, k, end, pos, reader, sink))
    decreases end - k
  {
    if k < end {
      var size: int := data[k];
      LacingCut(data, short, pos, data[k], reader, sink);
      var first := Lacing(data, pos, data[k], reader, sink);
      if pos + size <= |short| && first.Continue? {
        LacingsCut(data, short, k + 1, end, pos + size, first.reader, sink);
        var cut := Lacings(short, k + 1, end, pos + size, first.reader, sink);
        var full := Lacings(data, k + 1, end, pos + size, first.reader, sink);
        assert Lacings(short, k, end, pos, reader, sink) == After(first.sent, cut);
        assert Lacings(data, k, end, pos, reader, sink) == After(first.sent, full);
        AfterCuts(first.sent, cut, full);
      }
    }
  }

  lemma {:induction false} TotalCut(data: Bytes, short: Bytes, k: nat, end: nat)
    requires k <= end <= |short| && short <= data
    ensures Total(short, k, end) == Total(data, k, end)
    decreases end - k
  {
    if k < end {
      TotalCut(data, short, k + 1, end);
    }
  }

  lemma BodyCut(data: Bytes, short: Bytes, pos: nat, reader: Reader, sink: Sink)
    requires pos <= |short| && short <= data && HeaderFailure(short, pos, reader) == None
    ensures var cut, full := ReadPage(short, pos, reader, sink), ReadPage(data, pos, reader, sink);
      CutsTo(cut.0, full.0) && (cut.0.Continue? ==> cut == full)
  {
    var table := pos + PAGE_HEADER;
    var body := table + data[pos + 26];
    LacingsCut(data, short, table, body, body, reader, sink);
    TotalCut(data, short, table, body);
  }

  /** The page step of a cut stream is the same, or stops early. */
  lemma PageCut(data: Bytes, short: Bytes, pos: nat, reader: Reader, sink: Sink)
    requires pos <= |short| && short <= data
    ensures var cut, full := ReadPage(short, pos, reader, sink), ReadPage(data, pos, reader, sink);
      CutsTo(cut.0, full.0) && (cut.0.Continue? ==> cut == full)
  {
    if HeaderFailure(short, pos, reader) == None {
      BodyCut(data, short, pos, reader, sink);
    }
  }

  /** Cutting any stream anywhere never makes the reader send anything but a prefix of the same packets. */
  lemma {:induction false} CutSendsPrefix(data: Bytes, n: nat, pos: nat, reader: Reader, sink: Sink)
    requires pos <= n <= |data|
    ensures Read(data[..n], pos, reader, sink).sent <= Read(data, pos, reader, sink).sent
    decreases |data| - pos
  {
    if pos < n {
      PageCut(data, data[..n], pos, reader, sink);
      var (step, next) := ReadPage(data[..n], pos, reader, sink);
      if step.Continue? {
        CutSendsPrefix(data, n, next, step.reader, sink);
      }
    }
  }

  lemma EncodeFirst(pages: seq<Page>, j: nat)
    requires j < |pages| && forall p | p in pages :: WellFormed(p)
    ensures |EncodeAll(pages[..j + 1])| == |Encode(pages[0])| + |EncodeAll(pages[1..][..j])|
  {
    assert pages[..j + 1][0] == pages[0] && pages[..j + 1][1..] == pages[1..][..j];
  }

  /** A cut that is read without complaint falls on a page boundary. */
  lemma {:induction false} AcceptedCut(data: Bytes, n: nat, pos: nat, pages: seq<Page>, reader: Reader, sink: Sink)
    returns (k: nat)
    requires forall p | p in pages :: WellFormed(p)
    requires pos <= n <= |data| && data[pos..] == EncodeAll(pages)
    requires Flagged(pages, reader.packet != [])
    requires Feed(PagePieces(pages), reader, sink).Continue?
    requires Read(data[..n], pos, reader, sink).failure == None
    ensures k <= |pages| && n - pos == |EncodeAll(pages[..k])|
    decreases |pages|
  {
    if n == pos {
      k := 0;
    } else {
      var page, rest := pages[0], pages[1..];
      var next := FirstPage(data, pos, pages, reader, sink);
      PageCut(data, data[..n], pos, reader, sink);
      var j := AcceptedCut(data, n, next, rest, Feed(page.pieces, reader, sink).reader, sink);
      k := j + 1;
      EncodeFirst(pages, j);
    }
  }

  lemma {:induction false} LeadingBytes(pages: seq<Page>, k: nat)
    requires k <= |pages| && forall p | p in pages :: WellFormed(p)
    ensures EncodeAll(pages[..k]) <= EncodeAll(pages)
    decreases k
  {
    if k > 0 {
      assert pages[..k][1..] == pages[1..][..k - 1];
      LeadingBytes(pages[1..], k - 1);
    }
  }

  lemma {:induction false} LeadingPieces(pages: seq<Page>, k: nat)
    requires k <= |pages|
    ensures PagePieces(pages) == PagePieces(pages[..k]) + PagePieces(pages[k..])
    decreases k
  {
    if k > 0 {
      assert pages[..k][1..] == pages[1..][..k - 1];
      assert pages[k..] == pages[1..][k - 1..];
      LeadingPieces(pages[1..], k - 1);
    } else {
      assert pages[k..] == pages;
    }
  }

  lemma {:induction false} LeadingFlags(pages: seq<Page>, k: nat, open: bool)
    requires k <= |pages| && Flagged(pages, open)
    ensures Flagged(pages[..k], open)
    decreases k
  {
    if k > 0 {
      assert pages[..k][1..] == pages[1..][..k - 1];
      LeadingFlags(pages[1..], k - 1, OpenAfter(pages[0].pieces, open));
    }
  }

  /** The first n bytes are whole pages, and the pieces on them are whole packets, at least one. */
  ghost predicate CleanCut(pages: seq<Page>, n: nat)
    requires forall p | p in pages :: WellFormed(p)
  {
    exists k | 0 <= k <= |pages| :: CutAfter(pages, n, k)
  }

  ghost predicate CutAfter(pages: seq<Page>, n: nat, k: nat)
    requires k <= |pages| && forall p | p in pages :: WellFormed(p)
  {
    n == |EncodeAll(pages[..k])| && PagePieces(pages[..k]) != [] && !OpenAfter(PagePieces(pages[..k]), false)
  }

  lemma {:induction false} OnlyLastPieceIsShort(packet: Bytes, j: nat)
    requires j < |Pieces(packet)|
    ensures |Pieces(packet)[j]| < 255 <==> j == |Pieces(packet)| - 1
    decreases |packet|
  {
    if |packet| >= 255 && j > 0 {
      OnlyLastPieceIsShort(packet[255..], j - 1);
    }
  }

  lemma {:induction false} HeadStays(pieces: seq<Bytes>, reader: Reader, sink: Sink)
    requires Feed(pieces, reader, sink).Continue? && reader.seenHead
    ensures Feed(pieces, reader, sink).reader.seenHead
    decreases |pieces|
  {
    if pieces != [] {
      HeadStays(pieces[1..], Accept(pieces[0], reader, sink).reader, sink);
    }
  }

  /** Leading pieces that end with a packet contain all of the first packet. */
  lemma HeadComplete(packets: seq<Bytes>, leading: seq<Bytes>, sink: Sink)
    requires packets != [] && Playable(packets[0], sink) && sink.kind(packets[0]) == Head
    requires leading <= AllPieces(packets) && leading != [] && !OpenAfter(leading, false)
    requires Feed(leading, FRESH, sink).Continue?
    ensures Feed(leading, FRESH, sink).reader.seenHead
  {
    var first := Pieces(packets[0]);
    if |leading| < |first| {
      OnlyLastPieceIsShort(packets[0], |leading| - 1);
    } else {
      assert leading[..|first|] == AllPieces(packets)[..|first|] == first;
      assert leading == first + leading[|first|..] && [] + packets[0] == packets[0];
      FeedPacket([], packets[0], false, sink);
      FeedAppend(first, leading[|first|..], FRESH, sink);
      HeadStays(leading[|first|..], Feed(first, FRESH, sink).reader, sink);
    }
  }

  /** Any cut delivers only whole packets, and every cut inside a packet, a page or before the header is rejected. */
  lemma CutStream(packets: seq<Bytes>, pages: seq<Page>, n: nat, send: Bytes -> bool)
    requires var sink := Sink(OpusKind, send);
      packets != [] && OpusKind(packets[0]) == Head && forall p | p in packets :: Playable(p, sink)
    requires Paginates(pages, packets) && n <= |EncodeAll(pages)|
    ensures var sink := Sink(OpusKind, send);
      var reading := Read(EncodeAll(pages)[..n], 0, FRESH, sink);
      && reading.sent <= AudioOf(packets, sink)
      && (reading.failure == None <==> CleanCut(pages, n))
  {
    var sink := Sink(OpusKind, send);
    var data := EncodeAll(pages);
    RoundTrip(packets, pages, send);
    CutSendsPrefix(data, n, 0, FRESH, sink);
    FeedPackets(packets, false, sink);
    assert data[0..] == data;
    if Read(data[..n], 0, FRESH, sink).failure == None {
      var k := AcceptedCut(data, n, 0, pages, FRESH, sink);
      CutAt(packets, pages, n, k, sink);
    }
    if CleanCut(pages, n) {
      var k :| 0 <= k <= |pages| && CutAfter(pages, n, k);
      CutAt(packets, pages, n, k, sink);
    }
  }

  lemma CutAt(packets: seq<Bytes>, pages: seq<Page>, n: nat, k: nat, sink: Sink)
    requires packets != [] && sink.kind(packets[0]) == Head && Playable(packets[0], sink)
    requires Paginates(pages, packets) && Feed(PagePieces(pages), FRESH, sink).Continue?
    requires k <= |pages| && n == |EncodeAll(pages[..k])| <= |EncodeAll(pages)|
    ensures Read(EncodeAll(pages)[..n], 0, FRESH, sink).failure == None <==> CutAfter(pages, n, k)
  {
    var leading := PagePieces(pages[..k]);
    LeadingBytes(pages, k);
    LeadingPieces(pages, k);
    LeadingFlags(pages, k, false);
    FeedAppend(leading, PagePieces(pages[k..]), FRESH, sink);
    var cut := EncodeAll(pages)[..n];
    assert cut == EncodeAll(pages[..k]) && cut[0..] == cut;
    ReadPages(cut, 0, pages[..k], FRESH, sink);
    FeedOpen(leading, FRESH, sink);
    if leading != [] && !OpenAfter(leading, false) {
      HeadComplete(packets, leading, sink);
    }
  }
}
