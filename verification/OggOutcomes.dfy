/**
 How reading a stream ends, for every legal pagination of any packets and any answers of `send`, and for pages that
 are not legal.
 */
module OggOutcomes {
  import opened Prelude
  import opened Ogg
  import opened OggStreams

  // ---------------------------------------------------------------------------
  // The packet that ends the reading
  // ---------------------------------------------------------------------------

  /** An identification header is among the first k packets, or was seen before them. */
  ghost predicate HeadSeen(packets: seq<Bytes>, k: nat, seen: bool, sink: Sink)
    requires k <= |packets|
  {
    seen || exists i :: 0 <= i < k && sink.kind(packets[i]) == Head
  }

  /** Why the packet at k cannot be taken, if it cannot. */
  ghost function Trouble(packets: seq<Bytes>, k: nat, seen: bool, sink: Sink): Option<Failure>
    requires k < |packets|
  {
    if |packets[k]| > 65536 then Some(Oversized)
    else if sink.kind(packets[k]) != Audio then None
    else if !HeadSeen(packets, k, seen, sink) then Some(AudioBeforeHeader)
    else if packets[k] == [] then Some(EmptyAudio)
    else if !sink.send(packets[k]) then Some(SendFailed)
    else None
  }

  ghost predicate Fine(packets: seq<Bytes>, n: nat, seen: bool, sink: Sink)
    requires n <= |packets|
  {
    forall k | 0 <= k < n :: Trouble(packets, k, seen, sink) == None
  }

  lemma HeadSeenNext(packets: seq<Bytes>, k: nat, seen: bool, sink: Sink)
    requires 0 < k <= |packets|
    ensures HeadSeen(packets, k, seen, sink) <==>
      HeadSeen(packets[1..], k - 1, seen || sink.kind(packets[0]) == Head, sink)
  {
    if i :| 0 <= i < k && sink.kind(packets[i]) == Head {
      assert i > 0 ==> packets[1..][i - 1] == packets[i];
    }
    if i :| 0 <= i < k - 1 && sink.kind(packets[1..][i]) == Head {
      assert packets[i + 1] == packets[1..][i];
    }
  }

  lemma TroubleNext(packets: seq<Bytes>, k: nat, seen: bool, sink: Sink)
    requires 0 < k < |packets|
    ensures Trouble(packets, k, seen, sink) ==
      Trouble(packets[1..], k - 1, seen || sink.kind(packets[0]) == Head, sink)
  {
    HeadSeenNext(packets, k, seen, sink);
    assert packets[1..][k - 1] == packets[k];
  }

  lemma FineNext(packets: seq<Bytes>, n: nat, seen: bool, sink: Sink)
    requires 0 < n <= |packets| && Fine(packets, n, seen, sink)
    ensures Fine(packets[1..], n - 1, seen || sink.kind(packets[0]) == Head, sink)
  {
    var rest, head := packets[1..], seen || sink.kind(packets[0]) == Head;
    forall k | 0 <= k < n - 1
      ensures Trouble(rest, k, head, sink) == None
    {
      TroubleNext(packets, k + 1, seen, sink);
    }
  }

  /** A packet over the bound is refused before it is complete, whatever part of it is there. */
  lemma {:induction false} FeedOversized(done: Bytes, rest: Bytes, seenHead: bool, sink: Sink)
    requires |done| <= 65536 < |done| + |rest|
    ensures Feed(Pieces(rest), Reader(done, seenHead), sink) == Stop([], Oversized)
    decreases |rest|
  {
    if |rest| >= 255 && |done| + 255 <= 65536 {
      assert Pieces(rest)[1..] == Pieces(rest[255..]);
      FeedOversized(done + rest[..255], rest[255..], seenHead, sink);
    }
  }

  lemma FeedFirst(packets: seq<Bytes>, seen: bool, sink: Sink)
    requires packets != [] && |packets[0]| <= 65536
    ensures var first := Complete(packets[0], seen, sink);
      Feed(AllPieces(packets), Reader([], seen), sink) ==
        if first.Stop? then first else After(first.sent, Feed(AllPieces(packets[1..]), first.reader, sink))
  {
    assert [] + packets[0] == packets[0];
    FeedPacket([], packets[0], seen, sink);
    FeedAppend(Pieces(packets[0]), AllPieces(packets[1..]), Reader([], seen), sink);
  }

  /** The first packet, if there is nothing wrong with it. */
  lemma CompleteFine(packets: seq<Bytes>, seen: bool, sink: Sink)
    requires packets != [] && Trouble(packets, 0, seen, sink) == None
    ensures Complete(packets[0], seen, sink) ==
      Continue(Reader([], seen || sink.kind(packets[0]) == Head),
               if sink.kind(packets[0]) == Audio then [packets[0]] else [])
  {
  }

  /** Packets without trouble are taken one after the other: the audio is sent, the headers are kept back. */
  lemma {:induction false} FeedFine(packets: seq<Bytes>, seen: bool, sink: Sink)
    requires Fine(packets, |packets|, seen, sink)
    ensures Feed(AllPieces(packets), Reader([], seen), sink) ==
      Continue(Reader([], HeadSeen(packets, |packets|, seen, sink)), AudioOf(packets, sink))
    decreases |packets|
  {
    if packets != [] {
      FineNext(packets, |packets|, seen, sink);
      HeadSeenNext(packets, |packets|, seen, sink);
      assert Trouble(packets, 0, seen, sink) == None;
      CompleteFine(packets, seen, sink);
      FeedFirst(packets, seen, sink);
      FeedFine(packets[1..], seen || sink.kind(packets[0]) == Head, sink);
    }
  }

  /** What was sent when the packet at k ended the reading: the audio before it, and it if its sending failed. */
  ghost function SentBy(packets: seq<Bytes>, k: nat, failure: Failure, sink: Sink): seq<Bytes>
    requires k < |packets|
  {
    AudioOf(packets[..k], sink) + if failure == SendFailed then [packets[k]] else []
  }

  lemma SentByNext(packets: seq<Bytes>, k: nat, failure: Failure, sink: Sink)
    requires 0 < k < |packets|
    ensures SentBy(packets, k, failure, sink) ==
      (if sink.kind(packets[0]) == Audio then [packets[0]] else []) + SentBy(packets[1..], k - 1, failure, sink)
  {
    assert packets[..k][1..] == packets[1..][..k - 1];
    assert packets[1..][k - 1] == packets[k];
  }

  lemma {:induction false} FeedTrouble(packets: seq<Bytes>, k: nat, seen: bool, sink: Sink)
    requires k < |packets| && Fine(packets, k, seen, sink) && Trouble(packets, k, seen, sink).Some?
    ensures var failure := Trouble(packets, k, seen, sink).value;
      Feed(AllPieces(packets), Reader([], seen), sink) == Stop(SentBy(packets, k, failure, sink), failure)
    decreases k
  {
    if k == 0 {
      if |packets[0]| > 65536 {
        FeedOversized([], packets[0], seen, sink);
        FeedAppend(Pieces(packets[0]), AllPieces(packets[1..]), Reader([], seen), sink);
      } else {
        FeedFirst(packets, seen, sink);
      }
    } else {
      var head := seen || sink.kind(packets[0]) == Head;
      var failure := Trouble(packets, k, seen, sink).value;
      FineNext(packets, k, seen, sink);
      TroubleNext(packets, k, seen, sink);
      assert Trouble(packets, 0, seen, sink) == None;
      CompleteFine(packets, seen, sink);
      FeedFirst(packets, seen, sink);
      FeedTrouble(packets[1..], k - 1, head, sink);
      SentByNext(packets, k, failure, sink);
    }
  }

  // ---------------------------------------------------------------------------
  // From pages to packets
  // ---------------------------------------------------------------------------

  lemma PageThen(data: Bytes, pos: nat, page: Page, rest: Bytes, reader: Reader, sink: Sink)
    requires pos <= |data| && WellFormed(page) && data[pos..] == Encode(page) + rest
    requires page.flags % 2 == 1 <==> reader.packet != []
    ensures var next := pos + |Encode(page)|;
      && pos < next <= |data| && data[next..] == rest
      && ReadPage(data, pos, reader, sink).0 == Feed(page.pieces, reader, sink)
      && (Feed(page.pieces, reader, sink).Continue? ==> ReadPage(data, pos, reader, sink).1 == next)
  {
    SplitData(data, pos, Encode(page), rest);
    TakesPage(data, pos, page, reader, sink);
  }

  /** The whole reading, if these pieces were read first and then the data from `last` on. */
  ghost function Onwards(data: Bytes, last: nat, fed: Step, sink: Sink): Reading
    requires last <= |data|
  {
    if fed.Stop? then Reading(fed.sent, Some(fed.failure))
    else
      var rest := Read(data, last, fed.reader, sink);
      Reading(fed.sent + rest.sent, rest.failure)
  }

  /** Reading from pos on comes to this step and then goes on at `last`. */
  ghost predicate ReadsAs(data: Bytes, pos: nat, reader: Reader, sink: Sink, fed: Step, last: nat)
    requires pos <= |data| && last <= |data|
  {
    Read(data, pos, reader, sink) == Onwards(data, last, fed, sink)
  }

  ghost predicate Legal(pages: seq<Page>, open: bool) {
    (forall p | p in pages :: WellFormed(p)) && Flagged(pages, open)
  }

  /** From pos on the data is these pages and then the tail. */
  ghost predicate Holds(data: Bytes, pos: nat, pages: seq<Page>, tail: Bytes)
    requires forall p | p in pages :: WellFormed(p)
  {
    pos <= |data| && data[pos..] == EncodeAll(pages) + tail
  }

  /** The step that the pieces of the pages come to. */
  ghost predicate Feeds(pages: seq<Page>, reader: Reader, sink: Sink, fed: Step) {
    fed == Feed(PagePieces(pages), reader, sink)
  }

  /** The reader takes legal pages as their pieces, whatever follows them. */
  lemma {:induction false} ReadsThrough(data: Bytes, pos: nat, pages: seq<Page>, tail: Bytes, last: nat,
        reader: Reader, sink: Sink) returns (fed: Step)
    requires Legal(pages, reader.packet != []) && Holds(data, pos, pages, tail) && last + |tail| == |data|
    ensures Feeds(pages, reader, sink, fed) && ReadsAs(data, pos, reader, sink, fed, last)
    decreases |pages|
  {
    if pages == [] {
      fed := Continue(reader, []);
      ReadsNothing(data, pos, tail, reader, sink);
    } else {
      var next := FirstBytes(data, pos, pages, tail, reader, sink);
      var first := FirstFed(pages, reader, sink);
      if first.Continue? {
        var rest := ReadsThrough(data, next, pages[1..], tail, last, first.reader, sink);
        fed := After(first.sent, rest);
        FeedsOn(pages, reader, sink, first, rest);
        ReadsPage(data, pos, next, first, reader, sink);
        ReadsOn(data, pos, next, first, rest, last, reader, sink);
      } else {
        fed := first;
        FeedsStop(pages, reader, sink, first);
        ReadsStop(data, pos, first, last, reader, sink);
      }
    }
  }

  lemma ReadsNothing(data: Bytes, pos: nat, tail: Bytes, reader: Reader, sink: Sink)
    requires Holds(data, pos, [], tail)
    ensures pos == |data| - |tail| && ReadsAs(data, pos, reader, sink, Continue(reader, []), pos)
  {
    assert data[pos..] == tail;
    var rest := Read(data, pos, reader, sink);
    assert [] + rest.sent == rest.sent;
  }

  lemma ReadsStop(data: Bytes, pos: nat, first: Step, last: nat, reader: Reader, sink: Sink)
    requires pos < |data| && last <= |data| && first.Stop? && ReadPage(data, pos, reader, sink).0 == first
    ensures ReadsAs(data, pos, reader, sink, first, last)
  {
  }

  lemma ReadsPage(data: Bytes, pos: nat, next: nat, first: Step, reader: Reader, sink: Sink)
    requires pos < next <= |data| && first.Continue? && ReadPage(data, pos, reader, sink) == (first, next)
    ensures ReadsAs(data, pos, reader, sink, first, next)
  {
  }

  /** One page read, and then the rest. */
  lemma ReadsOn(data: Bytes, pos: nat, next: nat, first: Step, fed: Step, last: nat, reader: Reader, sink: Sink)
    requires pos < next <= last <= |data| && first.Continue?
    requires ReadsAs(data, pos, reader, sink, first, next) && ReadsAs(data, next, first.reader, sink, fed, last)
    ensures ReadsAs(data, pos, reader, sink, After(first.sent, fed), last)
  {
    if fed.Continue? {
      var rest := Read(data, last, fed.reader, sink);
      assert first.sent + (fed.sent + rest.sent) == (first.sent + fed.sent) + rest.sent;
    }
  }

  lemma Regroup(a: Bytes, b: Bytes, c: Bytes)
    ensures a + b + c == a + (b + c)
  {
  }

  lemma FirstBytes(data: Bytes, pos: nat, pages: seq<Page>, tail: Bytes, reader: Reader, sink: Sink)
    returns (next: nat)
    requires pages != [] && Legal(pages, reader.packet != []) && Holds(data, pos, pages, tail)
    ensures pos < next <= |data| - |tail| && Holds(data, next, pages[1..], tail)
    ensures ReadPage(data, pos, reader, sink).0 == Feed(pages[0].pieces, reader, sink)
    ensures Feed(pages[0].pieces, reader, sink).Continue? ==> ReadPage(data, pos, reader, sink).1 == next
  {
    next := pos + |Encode(pages[0])|;
    Regroup(Encode(pages[0]), EncodeAll(pages[1..]), tail);
    PageThen(data, pos, pages[0], EncodeAll(pages[1..]) + tail, reader, sink);
  }

  lemma FirstFed(pages: seq<Page>, reader: Reader, sink: Sink) returns (first: Step)
    requires pages != [] && Legal(pages, reader.packet != [])
    ensures first == Feed(pages[0].pieces, reader, sink)
    ensures first.Continue? ==> Legal(pages[1..], first.reader.packet != [])
  {
    first := Feed(pages[0].pieces, reader, sink);
    if first.Continue? {
      FeedOpen(pages[0].pieces, reader, sink);
    }
  }

  lemma FeedsOn(pages: seq<Page>, reader: Reader, sink: Sink, first: Step, rest: Step)
    requires pages != [] && first == Feed(pages[0].pieces, reader, sink) && first.Continue?
    requires Feeds(pages[1..], first.reader, sink, rest)
    ensures Feeds(pages, reader, sink, After(first.sent, rest))
  {
    FeedAppend(pages[0].pieces, PagePieces(pages[1..]), reader, sink);
  }

  lemma FeedsStop(pages: seq<Page>, reader: Reader, sink: Sink, first: Step)
    requires pages != [] && first == Feed(pages[0].pieces, reader, sink) && first.Stop?
    ensures Feeds(pages, reader, sink, first)
  {
    FeedAppend(pages[0].pieces, PagePieces(pages[1..]), reader, sink);
  }

  /** A legal stream of any packets is read as its pieces, to the end. */
  lemma ReadsStream(packets: seq<Bytes>, pages: seq<Page>, sink: Sink)
    requires Paginates(pages, packets)
    ensures var fed := Feed(AllPieces(packets), FRESH, sink);
      Read(EncodeAll(pages), 0, FRESH, sink) ==
        if fed.Stop? then Reading(fed.sent, Some(fed.failure))
        else Reading(fed.sent, if fed.reader.packet != [] then Some(UnexpectedEnd)
                               else if !fed.reader.seenHead then Some(MissingHeader) else None)
  {
    var data := EncodeAll(pages);
    assert data[0..] == data + [];
    var fed := ReadsThrough(data, 0, pages, [], |data|, FRESH, sink);
    assert fed.sent + [] == fed.sent;
  }

  // ---------------------------------------------------------------------------
  // Main results
  // ---------------------------------------------------------------------------

  /**
   A legal stream of packets without trouble is read to its end: exactly the audio is sent, in order, and the end is
   clean if and only if an identification header was among the packets.
   */
  lemma FineStream(packets: seq<Bytes>, pages: seq<Page>, send: Bytes -> bool)
    requires var sink := Sink(OpusKind, send);
      Paginates(pages, packets) && Fine(packets, |packets|, false, sink)
    ensures var sink := Sink(OpusKind, send);
      Read(EncodeAll(pages), 0, FRESH, sink) ==
        Reading(AudioOf(packets, sink), if HeadSeen(packets, |packets|, false, sink) then None else Some(MissingHeader))
  {
    var sink := Sink(OpusKind, send);
    FeedFine(packets, false, sink);
    ReadsStream(packets, pages, sink);
  }

  /** The first packet with trouble ends the reading at once, with its failure: nothing after it is sent. */
  lemma TroubledStream(packets: seq<Bytes>, pages: seq<Page>, send: Bytes -> bool, k: nat)
    requires var sink := Sink(OpusKind, send);
      && Paginates(pages, packets) && k < |packets| && Fine(packets, k, false, sink)
      && Trouble(packets, k, false, sink).Some?
    ensures var sink := Sink(OpusKind, send);
      var failure := Trouble(packets, k, false, sink).value;
      Read(EncodeAll(pages), 0, FRESH, sink) == Reading(SentBy(packets, k, failure, sink), Some(failure))
  {
    var sink := Sink(OpusKind, send);
    FeedTrouble(packets, k, false, sink);
    ReadsStream(packets, pages, sink);
  }

  /** A stream that begins with OpusHead, of packets within the bound that are not empty. */
  ghost predicate Opus(packets: seq<Bytes>) {
    packets != [] && OpusKind(packets[0]) == Head && forall p | p in packets :: p != [] && |p| <= 65536
  }

  /** The audio up to and including the first packet that `send` refuses. */
  ghost function UpToRefused(audio: seq<Bytes>, send: Bytes -> bool): (sent: seq<Bytes>)
    ensures sent <= audio
    ensures forall i | 0 <= i < |sent| - 1 :: send(sent[i])
    ensures sent != audio ==> sent != [] && !send(sent[|sent| - 1])
  {
    if audio == [] then []
    else if !send(audio[0]) then [audio[0]]
    else [audio[0]] + UpToRefused(audio[1..], send)
  }

  lemma OpusTrouble(packets: seq<Bytes>, k: nat, sink: Sink)
    requires Opus(packets) && k < |packets| && sink.kind == OpusKind
    ensures Trouble(packets, k, false, sink) ==
      if sink.kind(packets[k]) == Audio && !sink.send(packets[k]) then Some(SendFailed) else None
  {
    assert packets[k] in packets;
    if k > 0 {
      assert HeadSeen(packets, k, false, sink) by {
        assert sink.kind(packets[0]) == Head;
      }
    }
  }

  /** The sending that failed is the first in the order of the packets. */
  lemma {:induction false} AudioRefused(packets: seq<Bytes>, k: nat, sink: Sink)
    requires k < |packets| && sink.kind(packets[k]) == Audio && !sink.send(packets[k])
    requires forall i | 0 <= i < k :: sink.kind(packets[i]) == Audio ==> sink.send(packets[i])
    ensures UpToRefused(AudioOf(packets, sink), sink.send) == SentBy(packets, k, SendFailed, sink)
    ensures packets[k] in AudioOf(packets, sink)
    decreases k
  {
    var rest := AudioOf(packets[1..], sink);
    if k == 0 {
      assert AudioOf(packets, sink) == [packets[0]] + rest;
      assert ([packets[0]] + rest)[0] == packets[0];
    } else {
      AudioRefused(packets[1..], k - 1, sink);
      SentByNext(packets, k, SendFailed, sink);
      UpToRefusedNext(packets, sink);
    }
  }

  lemma UpToRefusedNext(packets: seq<Bytes>, sink: Sink)
    requires packets != [] && (sink.kind(packets[0]) == Audio ==> sink.send(packets[0]))
    ensures var rest := AudioOf(packets[1..], sink);
      && UpToRefused(AudioOf(packets, sink), sink.send) ==
           (if sink.kind(packets[0]) == Audio then [packets[0]] else []) + UpToRefused(rest, sink.send)
      && forall a | a in rest :: a in AudioOf(packets, sink)
  {
    var rest := AudioOf(packets[1..], sink);
    if sink.kind(packets[0]) == Audio {
      assert AudioOf(packets, sink) == [packets[0]] + rest;
      assert AudioOf(packets, sink)[1..] == rest;
    } else {
      assert AudioOf(packets, sink) == [] + rest == rest;
    }
  }

  lemma {:induction false} AudioAccepted(packets: seq<Bytes>, sink: Sink)
    requires forall p | p in packets :: sink.kind(p) == Audio ==> sink.send(p)
    ensures forall a | a in AudioOf(packets, sink) :: sink.send(a)
    ensures UpToRefused(AudioOf(packets, sink), sink.send) == AudioOf(packets, sink)
  {
    if packets != [] {
      AudioAccepted(packets[1..], sink);
      assert packets[0] in packets;
      UpToRefusedNext(packets, sink);
    }
  }

  lemma FirstRefused(packets: seq<Bytes>, sink: Sink) returns (k: nat)
    requires exists p :: p in packets && sink.kind(p) == Audio && !sink.send(p)
    ensures k < |packets| && sink.kind(packets[k]) == Audio && !sink.send(packets[k])
    ensures forall i | 0 <= i < k :: sink.kind(packets[i]) == Audio ==> sink.send(packets[i])
  {
    k := 0;
    while !(sink.kind(packets[k]) == Audio && !sink.send(packets[k]))
      invariant k < |packets|
      invariant exists i :: k <= i < |packets| && sink.kind(packets[i]) == Audio && !sink.send(packets[i])
      invariant forall i | 0 <= i < k :: sink.kind(packets[i]) == Audio ==> sink.send(packets[i])
      decreases |packets| - k
    {
      k := k + 1;
    }
  }

  /**
   For every legal pagination and any answers of `send`: the frames sent are the audio packets up to and including the
   first that `send` refuses, and the reading fails, with that failure, exactly when there is one.
   */
  lemma RefusedFrameStops(packets: seq<Bytes>, pages: seq<Page>, send: Bytes -> bool)
    requires Opus(packets) && Paginates(pages, packets)
    ensures var sink := Sink(OpusKind, send);
      var audio := AudioOf(packets, sink);
      Read(EncodeAll(pages), 0, FRESH, sink) ==
        Reading(UpToRefused(audio, send), if forall a | a in audio :: send(a) then None else Some(SendFailed))
  {
    var sink := Sink(OpusKind, send);
    if exists p :: p in packets && sink.kind(p) == Audio && !sink.send(p) {
      var k := FirstRefused(packets, sink);
      forall i | 0 <= i <= k
        ensures Trouble(packets, i, false, sink) == if i < k then None else Some(SendFailed)
      {
        OpusTrouble(packets, i, sink);
      }
      TroubledStream(packets, pages, send, k);
      AudioRefused(packets, k, sink);
    } else {
      forall i | 0 <= i < |packets|
        ensures Trouble(packets, i, false, sink) == None
      {
        OpusTrouble(packets, i, sink);
      }
      FineStream(packets, pages, send);
      AudioAccepted(packets, sink);
      assert HeadSeen(packets, |packets|, false, sink) by {
        assert sink.kind(packets[0]) == Head;
      }
    }
  }

  /** What is wrong with the bytes that stand where a page should, given whether a packet is open there. */
  ghost function BadPage(tail: Bytes, open: bool): Option<Failure> {
    if |tail| < 27 then Some(UnexpectedEnd)
    else if tail[..4] != [0x4F, 0x67, 0x67, 0x53] || tail[4] != 0 then Some(InvalidStream)
    else if (tail[5] % 2 == 1) != open then Some(InvalidContinuation)
    else None
  }

  /**
   After legal pages, a header that is cut short, one that is no page of version 0, or one with a wrong continuation
   flag ends the reading there, with what the pages before it gave.
   */
  lemma BadPageStops(pages: seq<Page>, tail: Bytes, sink: Sink)
    requires Legal(pages, false) && tail != [] && BadPage(tail, OpenAfter(PagePieces(pages), false)).Some?
    requires Feed(PagePieces(pages), FRESH, sink).Continue?
    ensures Read(EncodeAll(pages) + tail, 0, FRESH, sink) ==
      Reading(Feed(PagePieces(pages), FRESH, sink).sent, BadPage(tail, OpenAfter(PagePieces(pages), false)))
  {
    var data := EncodeAll(pages) + tail;
    assert data[0..] == data;
    var fed := ReadsThrough(data, 0, pages, tail, |data| - |tail|, FRESH, sink);
    FeedOpen(PagePieces(pages), FRESH, sink);
    assert data[|data| - |tail|..] == tail;
    BadTail(data, |data| - |tail|, tail, fed.reader, sink);
    assert fed.sent + [] == fed.sent;
  }

  lemma BadTail(data: Bytes, pos: nat, tail: Bytes, reader: Reader, sink: Sink)
    requires pos <= |data| && data[pos..] == tail && tail != [] && BadPage(tail, reader.packet != []).Some?
    ensures Read(data, pos, reader, sink) == Reading([], BadPage(tail, reader.packet != []))
  {
    if |tail| >= 27 {
      assert tail[..4] == data[pos..pos + 4];
      assert data[pos + 4] == tail[4] && data[pos + 5] == tail[5];
    }
  }
}
