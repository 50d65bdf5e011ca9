/**
 How often one playing is counted in the history of a run, and what Previous does to a resumed song.
 */
module HistoryCount {
  import opened Prelude
  import opened PlayerState
  import opened SlotIdentity
  import opened Progress

  /** This step announces the start of an attempt to play it. */
  predicate Announces(s: Player, e: Event, occ: nat) {
    e.P? && e.playing.FirstFrame? && Unstarted(s, e.playing.sequence) && s.deck.currentOcc == occ
  }

  /** The announcement adds it to the history. */
  predicate Counts(s: Player, e: Event, occ: nat) {
    Announces(s, e, occ) && s.deck.current.value.offset == 0
  }

  // ---------------------------------------------------------------------------
  // Attempts have increasing numbers
  // ---------------------------------------------------------------------------

  /** The attempt with this number has started, or is over. */
  predicate Begun(t: Tape, n: nat) {
    t.sequence > n || (t.sequence == n && t.startedSequence == n)
  }

  lemma {:induction false} StaysBegun(states: seq<Player>, events: seq<Event>, n: nat, i: nat, j: nat)
    requires Run(states, events) && i <= j <= |events|
    ensures states[i].tape.sequence <= states[j].tape.sequence
    ensures Begun(states[i].tape, n) ==> Begun(states[j].tape, n)
  {
    if i < j {
      StaysBegun(states, events, n, i, j - 1);
      TapeGrows(states[j - 1], events[j - 1], states[j]);
    }
  }

  /** The song that plays at j was taken from the head of the queue at m, with the offset it still has. */
  ghost predicate TakenAt(states: seq<Player>, m: nat, j: nat)
    requires m < j < |states|
  {
    var q := states[m].deck.queue;
    && states[m].deck.current.None? && states[j].deck.current.Some? && q != [] && !q[0].pending
    && q[0].occ == states[j].deck.currentOcc && q[0].track.offset == states[j].deck.current.value.offset
    && states[m].tape.sequence < states[m + 1].tape.sequence == states[j].tape.sequence
  }

  lemma {:induction false} AttemptBegan(states: seq<Player>, events: seq<Event>, i: nat, j: nat) returns (m: nat)
    requires Run(states, events) && Sound(states[0].deck) && i <= j <= |events|
    requires states[j].deck.current.Some? && states[i].tape.sequence < states[j].tape.sequence
    ensures i <= m < j && TakenAt(states, m, j)
  {
    var s, t := states[j - 1], states[j];
    RunSound(states, events, j - 1);
    if s.deck.current.Some? {
      CurrentMoves(s, events[j - 1], t);
      m := AttemptBegan(states, events, i, j - 1);
    } else {
      m := j - 1;
      Selected(s, events[j - 1], t);
    }
  }

  // ---------------------------------------------------------------------------
  // Counted once
  // ---------------------------------------------------------------------------

  lemma AnnouncedLater(states: seq<Player>, events: seq<Event>, occ: nat, i: nat, j: nat) returns (m: nat)
    requires Run(states, events) && Sound(states[0].deck) && i < j < |events|
    requires Announces(states[i], events[i], occ) && Announces(states[j], events[j], occ)
    ensures i < m < j && TakenAt(states, m, j)
  {
    var n := states[i].tape.sequence;
    assert states[i + 1] == Step(states[i], events[i]);
    StaysBegun(states, events, n, i + 1, j);
    m := AttemptBegan(states, events, i + 1, j);
  }

  /** The playing was taken at m for the attempt announced at j; it is counted at j unless audio came before. */
  lemma CountsIffSilent(states: seq<Player>, events: seq<Event>, occ: nat, i: nat, m: nat, j: nat)
    requires Coordinated(states, events) && Sound(states[0].deck) && i < m < j < |events|
    requires Counts(states[i], events[i], occ) && Announces(states[j], events[j], occ) && TakenAt(states, m, j)
    ensures Counts(states[j], events[j], occ) <==>
      states[i].tape.confirmed == 0 && Frames(states, events, occ, i, m) == 0
  {
    var head := states[m].deck.queue[0];
    assert head in states[m].deck.queue;
    ProgressConserved(states, events, occ, i, m, states[i].tape.confirmed, head.track.offset);
  }

  /**
   A playing that was counted is counted again by a later announcement if and only if not one frame of it
   was confirmed before it was taken for that attempt.
   */
  lemma CountedAgainIff(states: seq<Player>, events: seq<Event>, occ: nat, i: nat, j: nat) returns (m: nat)
    requires Coordinated(states, events) && Sound(states[0].deck) && i < j < |events|
    requires Counts(states[i], events[i], occ) && Announces(states[j], events[j], occ)
    ensures i < m < j && TakenAt(states, m, j)
    ensures Counts(states[j], events[j], occ) <==>
      states[i].tape.confirmed == 0 && Frames(states, events, occ, i, m) == 0
  {
    m := AnnouncedLater(states, events, occ, i, j);
    CountsIffSilent(states, events, occ, i, m, j);
  }

  lemma {:induction false} FrameCounted(states: seq<Player>, events: seq<Event>, occ: nat, i: nat, k: nat, m: nat)
    requires |states| == |events| + 1 && i <= k < m <= |events| && Sends(states[k], events[k], occ)
    ensures Frames(states, events, occ, i, m) > 0
  {
    if k < m - 1 {
      FrameCounted(states, events, occ, i, k, m - 1);
    }
  }

  /** One confirmed frame in the attempt that counted it is enough: no later attempt counts it. */
  lemma CountedOnce(states: seq<Player>, events: seq<Event>, occ: nat, i: nat, j: nat, k: nat)
    requires Coordinated(states, events) && Sound(states[0].deck) && i < j < |events|
    requires Counts(states[i], events[i], occ)
    requires states[i].tape.confirmed > 0
      || (i < k < |events| && Sends(states[k], events[k], occ) && states[k].tape.sequence == states[i].tape.sequence)
    ensures !Counts(states[j], events[j], occ)
  {
    if Announces(states[j], events[j], occ) {
      var m := CountedAgainIff(states, events, occ, i, j);
      if states[i].tape.confirmed == 0 {
        StaysBegun(states, events, 0, i, m);
        if m < k {
          StaysBegun(states, events, 0, m + 1, k);
        }
        FrameCounted(states, events, occ, i, k, m);
      }
    }
  }

  /** How often the first n steps count the playing. */
  function Times(states: seq<Player>, events: seq<Event>, occ: nat, n: nat): nat
    requires |states| == |events| + 1 && n <= |events|
  {
    if n == 0 then 0 else Times(states, events, occ, n - 1) + if Counts(states[n - 1], events[n - 1], occ) then 1 else 0
  }

  lemma {:induction false} TimesNone(states: seq<Player>, events: seq<Event>, occ: nat, n: nat)
    requires |states| == |events| + 1 && n <= |events|
    requires forall h | 0 <= h < n :: !Counts(states[h], events[h], occ)
    ensures Times(states, events, occ, n) == 0
  {
    if n > 0 {
      TimesNone(states, events, occ, n - 1);
    }
  }

  lemma {:induction false} TimesFrom(states: seq<Player>, events: seq<Event>, occ: nat, i: nat, n: nat)
    requires |states| == |events| + 1 && i < n <= |events| && Counts(states[i], events[i], occ)
    requires forall h | 0 <= h < i :: !Counts(states[h], events[h], occ)
    ensures Times(states, events, occ, n) >= 1
    ensures Times(states, events, occ, n) == 1 <==> forall j | i < j < n :: !Counts(states[j], events[j], occ)
  {
    if n == i + 1 {
      TimesNone(states, events, occ, i);
    } else {
      TimesFrom(states, events, occ, i, n - 1);
    }
  }

  /** Audio of the playing was confirmed before the attempt announced at j took it. */
  ghost predicate Audible(states: seq<Player>, events: seq<Event>, occ: nat, i: nat, j: nat)
    requires |states| == |events| + 1 && i < j < |events|
  {
    states[i].tape.confirmed > 0 ||
    exists m :: i < m < j && TakenAt(states, m, j) && Frames(states, events, occ, i, m) > 0
  }

  /**
   From its first count at i on, a playing stays counted exactly once if and only if every later announcement
   of it came after confirmed audio.
   */
  lemma CountedOnceIff(states: seq<Player>, events: seq<Event>, occ: nat, i: nat, n: nat)
    requires Coordinated(states, events) && Sound(states[0].deck) && i < n <= |events|
    requires Counts(states[i], events[i], occ) && forall h | 0 <= h < i :: !Counts(states[h], events[h], occ)
    ensures Times(states, events, occ, n) == 1 <==>
      forall j | i < j < n && Announces(states[j], events[j], occ) :: Audible(states, events, occ, i, j)
  {
    forall j | i < j < n && Announces(states[j], events[j], occ)
      ensures Counts(states[j], events[j], occ) <==> !Audible(states, events, occ, i, j)
    {
      var m := CountedAgainIff(states, events, occ, i, j);
      if exists k :: i < k < j && TakenAt(states, k, j) && Frames(states, events, occ, i, k) > 0 {
        var k :| i < k < j && TakenAt(states, k, j) && Frames(states, events, occ, i, k) > 0;
        CountsIffSilent(states, events, occ, i, k, j);
      }
    }
    TimesFrom(states, events, occ, i, n);
  }

  /** A playing whose first announcement followed a confirmed frame of it is counted exactly once. */
  lemma AudioFirstCountsOnce(states: seq<Player>, events: seq<Event>, occ: nat, i: nat, n: nat)
    requires Coordinated(states, events) && Sound(states[0].deck) && i < n <= |events|
    requires Counts(states[i], events[i], occ) && forall h | 0 <= h < i :: !Counts(states[h], events[h], occ)
    requires states[i].tape.confirmed > 0
    ensures Times(states, events, occ, n) == 1
  {
    CountedOnceIff(states, events, occ, i, n);
  }

  // ---------------------------------------------------------------------------
  // Two runs
  // ---------------------------------------------------------------------------

  /** One more step of a run. */
  lemma Then(states: seq<Player>, events: seq<Event>, e: Event) returns (more: seq<Player>, events': seq<Event>)
    requires Run(states, events)
    ensures events' == events + [e] && more == states + [Step(states[|states| - 1], e)] && Run(more, events')
  {
    more, events' := states + [Step(states[|states| - 1], e)], events + [e];
  }

  function Last(states: seq<Player>): Player
    requires states != []
  {
    states[|states| - 1]
  }

  /** An attempt plays this song, has come this far, and nothing holds playback back. */
  predicate Attempting(s: Player, song: Track, reached: nat, queue: Queue, history: seq<Track>) {
    && !s.closed && s.voice.attached && !s.voice.blocked && s.voice.recovering.None?
    && !s.halted && !s.providerBlocked && s.modes.loop == Off
    && s.deck.current == Some(song) && s.deck.attempt == Some(Attempt(song.offset, false)) && s.deck.queue == queue
    && s.tape.history == history && s.tape.confirmed == reached
  }

  predicate OnAir(s: Player, song: Track, reached: nat, queue: Queue, history: seq<Track>) {
    Attempting(s, song, reached, queue, history) && Started(s.tape)
  }

  predicate Cued(s: Player, song: Track, queue: Queue, history: seq<Track>) {
    Attempting(s, song, song.offset, queue, history) && !Started(s.tape)
  }

  function Announced(history: seq<Track>, song: Track): seq<Track> {
    if song.offset > 0 then history else history + [song]
  }

  /** The first frame is sent, and only then the start is announced. */
  lemma Begins(states: seq<Player>, events: seq<Event>, song: Track, queue: Queue, history: seq<Track>)
    returns (more: seq<Player>, events': seq<Event>)
    requires Run(states, events) && Cued(Last(states), song, queue, history) && |history| < MAX_HISTORY
    ensures Run(more, events') && more[0] == states[0] && Last(more).deck == Last(states).deck
    ensures OnAir(Last(more), song, song.offset + FRAME, queue, Announced(history, song))
    ensures Last(more).voice.attempts <= Last(states).voice.attempts
  {
    var n := Last(states).tape.sequence;
    more, events' := Then(states, events, P(FrameSent(n)));
    more, events' := Then(more, events', P(FirstFrame(n)));
  }

  /** The voice fails and recovers, and the song is taken again at what was confirmed. */
  lemma Interruption(states: seq<Player>, events: seq<Event>, song: Track, reached: nat,
        queue: Queue, history: seq<Track>)
    returns (more: seq<Player>, events': seq<Event>)
    requires Run(states, events) && OnAir(Last(states), song, reached, queue, history)
    requires song.live && Last(states).voice.attempts < VOICE_ATTEMPTS
    ensures Run(more, events') && more[0] == states[0] && Last(more).deck.currentOcc == Last(states).deck.currentOcc
    ensures Cued(Last(more), song.(offset := reached), queue, history)
  {
    more, events' := Then(states, events, T(LoseVoice));
    more, events' := Then(more, events', P(TrackEnds(VoiceError)));
    var back := Ready(song.(offset := reached), Last(states).deck.currentOcc);
    assert Last(more).deck.queue == [back] + queue;
    more, events' := Then(more, events', T(BeginRecovery));
    more, events' := Then(more, events', T(CallRecover));
    more, events' := Then(more, events', T(EndRecover(true)));
    more, events' := Then(more, events', P(SelectHead(false)));
    assert Last(more).deck.queue == queue;
  }

  /** The first song of a new player is taken. */
  lemma Summoned(song: Track, rest: Queue) returns (states: seq<Player>, events: seq<Event>)
    ensures var s := Fresh([Ready(song, 0)] + rest, [], Off);
      && Run(states, events) && states[0] == s && Last(states) == Select(Attach(s))
    ensures Cued(Last(states), song, rest, []) && Last(states).voice.attempts == 0
  {
    states, events := [Fresh([Ready(song, 0)] + rest, [], Off)], [];
    states, events := Then(states, events, T(AttachVoice));
    states, events := Then(states, events, P(SelectHead(false)));
  }

  /** A song announced by a silence frame, whose voice fails before any other frame, is counted twice. */
  lemma CountedTwice(b: Track) returns (states: seq<Player>, events: seq<Event>)
    requires b.live && b.offset == 0
    ensures Run(states, events) && states[0] == Fresh([Ready(b, 0)], [], Off)
    ensures Last(states).deck.currentOcc == 0 && Last(states).tape.history == [b, b]
  {
    states, events := Summoned(b, []);
    states, events := Then(states, events, P(FirstFrame(1)));
    assert [] + [b] == [b];
    states, events := Interruption(states, events, b, 0, [], [b]);
    assert b.(offset := 0) == b && [b] + [b] == [b, b];
    states, events := Then(states, events, P(FirstFrame(Last(states).tape.sequence)));
  }

  /** The first song is heard, and the second begins. */
  lemma TwoSongs(a: Track, b: Track) returns (states: seq<Player>, events: seq<Event>)
    requires a.offset == 0 && b.offset == 0
    ensures Run(states, events) && states[0] == Fresh([Ready(a, 0), Ready(b, 1)], [], Off)
    ensures OnAir(Last(states), b, FRAME, [], [a, b]) && Last(states).voice.attempts == 0
  {
    states, events := Summoned(a, [Ready(b, 1)]);
    states, events := Begins(states, events, a, [Ready(b, 1)], []);
    assert [] + [a] == [a];
    states, events := Then(states, events, P(TrackEnds(Eof)));
    states, events := Then(states, events, P(SelectHead(false)));
    assert Last(states).deck.queue == [];
    states, events := Begins(states, events, b, [], [a]);
  }

  /**
   Previous indexes outside the history in one ordinary run: a song is heard, the next is interrupted by the voice and
   resumes, Previous goes back, the first song is skipped before it starts, and the resumed one starts again.
   */
  lemma PreviousPanicsInARun(a: Track, b: Track) returns (states: seq<Player>, events: seq<Event>)
    requires a.offset == 0 && b.offset == 0 && b.live
    ensures Run(states, events) && states[0] == Fresh([Ready(a, 0), Ready(b, 1)], [], Off)
    ensures PreviousReply(Last(states)) == Panics
  {
    states, events := TwoSongs(a, b);
    states, events := Interruption(states, events, b, FRAME, [], [a, b]);
    var resumed := b.(offset := FRAME);
    states, events := Begins(states, events, resumed, [], [a, b]);
    states, events := GoBackAndSkip(states, events, a, resumed, b);
  }

  lemma GoBackAndSkip(states: seq<Player>, events: seq<Event>, a: Track, resumed: Track, b: Track)
    returns (more: seq<Player>, events': seq<Event>)
    requires Run(states, events) && resumed.offset > 0
    requires OnAir(Last(states), resumed, resumed.offset + FRAME, [], [a, b])
    ensures Run(more, events') && more[0] == states[0] && PreviousReply(Last(more)) == Panics
  {
    var occ := Last(states).deck.nextOcc;
    more, events' := Then(states, events, E(PlayPrevious));
    assert Last(more).deck.queue == [Ready(Rewound(a), occ), Ready(resumed, occ + 1)];
    assert Last(more).tape.history == [];
    more, events' := Then(more, events', P(TrackEnds(Eof)));
    more, events' := Then(more, events', P(SelectHead(false)));
    assert Last(more).deck.queue == [Ready(resumed, occ + 1)];
    more, events' := Then(more, events', E(SkipN(1)));
    assert Last(more).deck.queue == [Ready(resumed, occ + 1)];
    more, events' := Then(more, events', P(TrackEnds(Eof)));
    more, events' := Then(more, events', P(SelectHead(false)));
    more, events' := Begins(more, events', resumed, [], []);
  }
}
