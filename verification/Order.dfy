/**
 What reordering and looping do to the order of the songs.
 */
module Order {
  import opened Prelude
  import opened PlayerState
  import opened Restart

  /** The moved slot is where it was sent, and all others keep their order. */
  lemma MoveKeepsOrder(q: Queue, i: nat, j: nat)
    requires i < |q| && j < |q|
    ensures |Moved(q, i, j)| == |q| && Moved(q, i, j)[j] == q[i]
    ensures Without(Moved(q, i, j), j) == Without(q, i)
  {
    var rest := Without(q, i);
    var moved := Moved(q, i, j);
    assert moved[..j] == rest[..j] && moved[j + 1..] == rest[j..];
    assert rest == rest[..j] + rest[j..];
  }

  lemma {:induction false} ShuffleIsPermutation(q: Queue, swaps: Swaps)
    requires forall w | w in swaps :: w.0 < |q| && w.1 < |q|
    ensures multiset(Swapped(q, swaps)) == multiset(q)
  {
    if swaps != [] {
      var init, w := swaps[..|swaps| - 1], swaps[|swaps| - 1];
      assert w in swaps;
      ShuffleIsPermutation(q, init);
    }
  }

  /** Each swap exchanges two slots and leaves the others, in the order the swaps are given. */
  lemma SwapExchanges(q: Queue, swaps: Swaps, i: nat, j: nat, k: nat)
    requires (forall w | w in swaps :: w.0 < |q| && w.1 < |q|) && i < |q| && j < |q| && k < |q|
    ensures forall w | w in swaps + [(i, j)] :: w.0 < |q| && w.1 < |q|
    ensures Swapped(q, []) == q
    ensures var before := Swapped(q, swaps);
      Swapped(q, swaps + [(i, j)])[k] == before[if k == i then j else if k == j then i else k]
  {
    assert (swaps + [(i, j)])[..|swaps|] == swaps;
  }

  // ---------------------------------------------------------------------------
  // Looping
  // ---------------------------------------------------------------------------

  /** A song plays and every upcoming one is resolved; nothing holds playback back. */
  predicate Smooth(s: Player) {
    && !s.closed && s.voice.attached && !s.voice.blocked && s.voice.recovering.None? && !s.providerBlocked && !s.halted
    && s.deck.current.Some? && s.deck.attempt.Some? && !s.deck.attempt.value.interrupted
    && |s.deck.queue| < MAX_QUEUE && forall e | e in s.deck.queue :: !e.pending
  }

  /** The current song starts, ends cleanly, and the loop goes on. */
  function Round(s: Player): Player {
    var started := Step(s, P(FirstFrame(s.tape.sequence)));
    var ended := Step(started, P(TrackEnds(Eof)));
    Step(ended, P(SelectHead(false)))
  }

  function Rounds(s: Player, k: nat): Player {
    if k == 0 then s else Round(Rounds(s, k - 1))
  }

  /** The current song and then the upcoming ones. */
  function Songs(s: Player): seq<Track>
    requires s.deck.current.Some?
  {
    [s.deck.current.value] + Tracks(s.deck.queue)
  }

  function AllRewound(songs: seq<Track>): (r: seq<Track>)
    ensures |r| == |songs| && forall i | 0 <= i < |songs| :: r[i] == Rewound(songs[i])
  {
    seq(|songs|, i requires 0 <= i < |songs| => Rewound(songs[i]))
  }

  /** In the loop of one song, the same song begins again from its start and the queue stays. */
  lemma LoopOneRepeats(s: Player)
    requires Smooth(s) && s.modes.loop == One
    ensures var t := Round(s);
      Smooth(t) && t.modes.loop == One && t.deck.queue == s.deck.queue
      && t.deck.current == Some(Rewound(s.deck.current.value))
  {
    var again := [Ready(Rewound(s.deck.current.value), s.deck.nextOcc)];
    assert (again + s.deck.queue)[1..] == s.deck.queue;
  }

  /** In the loop of the queue, each clean end rotates the songs by one. */
  lemma LoopAllRotates(s: Player)
    requires Smooth(s) && s.modes.loop == All
    ensures var t := Round(s);
      Smooth(t) && t.modes.loop == All && Songs(t) == Songs(s)[1..] + [Rewound(Songs(s)[0])]
  {
    var again := Ready(Rewound(s.deck.current.value), s.deck.nextOcc);
    var r := s.deck.queue + [again];
    assert Tracks(r) == Songs(s)[1..] + [Rewound(Songs(s)[0])];
    assert Tracks(r) == [r[0].track] + Tracks(r[1..]);
  }

  lemma RotateOnce(songs: seq<Track>, k: nat)
    requires 0 < k <= |songs|
    ensures var before := songs[k - 1..] + AllRewound(songs[..k - 1]);
      before[1..] + [Rewound(before[0])] == songs[k..] + AllRewound(songs[..k])
  {
    assert AllRewound(songs[..k]) == AllRewound(songs[..k - 1]) + [Rewound(songs[k - 1])];
  }

  lemma {:induction false} LoopAllAfter(s: Player, k: nat)
    requires Smooth(s) && s.modes.loop == All && k <= |Songs(s)|
    ensures var t := Rounds(s, k);
      Smooth(t) && t.modes.loop == All && Songs(t) == Songs(s)[k..] + AllRewound(Songs(s)[..k])
  {
    var songs := Songs(s);
    if k == 0 {
      assert songs == songs[0..] + AllRewound(songs[..0]);
    } else {
      LoopAllAfter(s, k - 1);
      LoopAllRotates(Rounds(s, k - 1));
      RotateOnce(songs, k);
    }
  }

  /** When every song has ended once, the loop of the queue stands where it began, every song from its start. */
  lemma LoopAllReturns(s: Player)
    requires Smooth(s) && s.modes.loop == All
    ensures var t := Rounds(s, |Songs(s)|);
      Smooth(t) && Songs(t) == AllRewound(Songs(s))
  {
    var songs := Songs(s);
    LoopAllAfter(s, |songs|);
    assert songs[..|songs|] == songs && songs[|songs|..] == [];
  }
}
