/**
 A crash at any point of a run: what the last written snapshot still knows, and whether the history counts the
 interrupted song once.
 */
module Crashes {
  import opened Prelude
  import opened PlayerState
  import opened SlotIdentity
  import opened Progress
  import opened Restart
  import opened HistoryCount

  // ---------------------------------------------------------------------------
  // Which steps write
  // ---------------------------------------------------------------------------

  predicate EditWrites(s: Player, e: Edit) {
    match e
    case RemoveAt(position) => Upcoming(s.deck, position)
    case MoveTo(from, to) => Upcoming(s.deck, from) && Upcoming(s.deck, to)
    case ShuffleBy(swaps) => CanShuffle(s.deck, swaps)
    case JumpTo(position) => Upcoming(s.deck, position)
    case SkipN(count) => CanSkip(count)
    case ReplayCurrent => CanReplay(s.deck)
    case _ => true
  }

  /** A fresh song is not written when it is taken from the queue, only when it starts. */
  predicate PlayWrites(s: Player, p: Playing) {
    match p
    case SelectHead(permit) => CanSelect(s, permit) && s.deck.queue[0].track.offset > 0
    case SetTrack(_, _) => false
    case FrameSent(sequence) => Listening(s, sequence) && s.tape.confirmed + FRAME - s.tape.checkpoint >= CHECKPOINT
    case FirstFrame(sequence) => Unstarted(s, sequence)
    case TrackEnds(_) => s.deck.attempt.Some?
  }

  /** The steps after which the code writes a snapshot. */
  predicate Writes(s: Player, e: Event) {
    match e
    case E(edit) => EditWrites(s, edit)
    case C(control) => !control.Pause?
    case T(_) => false
    case P(playing) => PlayWrites(s, playing)
    case R(resolving) => resolving.CommitResult? || (resolving.JobEnds? && resolving.job in s.deck.jobs)
  }

  /** What the store holds after a step: more may be written than has to be, and nothing once the player is closed. */
  predicate Stores(c: Snapshot, s: Player, e: Event, t: Player, c': Snapshot) {
    (!s.closed && c' == Durable(t)) || (c' == c && (s.closed || !Writes(s, e)))
  }

  ghost predicate StoredRun(states: seq<Player>, events: seq<Event>, store: seq<Snapshot>) {
    && Run(states, events) && |store| == |states| && store[0] == Durable(states[0])
    && forall i | 0 <= i < |events| :: Stores(store[i], states[i], events[i], states[i + 1], store[i + 1])
  }

  // ---------------------------------------------------------------------------
  // How far the last snapshot lags behind
  // ---------------------------------------------------------------------------

  /** The song was taken from the queue but the snapshot still has it there; it has not started. */
  predicate StillQueued(c: Snapshot, s: Player) {
    && c.current == None && c.queue != [] && c.queue[0].offset == 0 && c.queue[1..] == Tracks(s.deck.queue)
    && s.deck.current.Some? && s.deck.current.value.offset == 0 && !Started(s.tape) && s.tape.checkpoint == 0
  }

  /** The snapshot has the current song, with the progress of the last checkpoint or later; once started, as it is. */
  predicate Trails(c: Snapshot, s: Player) {
    && c.current.Some? && c.queue == Tracks(s.deck.queue) && s.deck.current.Some? && c.started == Started(s.tape)
    && s.tape.checkpoint <= c.current.value.offset <= s.tape.confirmed
    && (Started(s.tape) ==> c.current.value == s.deck.current.value.(offset := c.current.value.offset))
  }

  predicate Idle(c: Snapshot, s: Player) {
    c.current == None && !c.started && c.queue == Tracks(s.deck.queue) && s.deck.current == None
  }

  /** All that the last snapshot may miss: where the current song is, and less than five seconds of its audio. */
  predicate Lags(c: Snapshot, s: Player) {
    c.modes == s.modes && c.history == s.tape.history && (Idle(c, s) || StillQueued(c, s) || Trails(c, s))
  }

  lemma FreshLags(s: Player)
    requires Paced(s)
    ensures Lags(Durable(s), s)
  {
  }

  /** What the snapshot is taken from, but for the progress of the current song. */
  predicate Alike(s: Player, t: Player) {
    && t.modes == s.modes && t.deck.queue == s.deck.queue && t.deck.current == s.deck.current
    && t.tape == s.tape
  }

  lemma AlikeLags(c: Snapshot, s: Player, t: Player)
    requires Lags(c, s) && Alike(s, t)
    ensures Lags(c, t)
  {
  }

  lemma UnwrittenEdit(s: Player, e: Edit)
    requires !EditWrites(s, e)
    ensures EditStep(s, e) == s
  {
  }

  lemma UnwrittenOthers(s: Player, e: Event, t: Player)
    requires t == Step(s, e) && !Writes(s, e) && !e.E? && !e.P?
    ensures Alike(s, t)
  {
  }

  lemma UnwrittenPlay(c: Snapshot, s: Player, p: Playing, t: Player)
    requires Lags(c, s) && Sound(s.deck) && Paced(s) && t == PlayStep(s, p) && !PlayWrites(s, p)
    ensures Lags(c, t)
  {
    match p
    case SelectHead(permit) =>
      if CanSelect(s, permit) {
        assert Tracks(s.deck.queue)[1..] == Tracks(s.deck.queue[1..]);
      }
    case _ =>
  }

  /** Every step keeps the snapshot that close. */
  lemma StoreLags(c: Snapshot, s: Player, e: Event, t: Player, c': Snapshot)
    requires Lags(c, s) && Sound(s.deck) && Paced(s) && !s.closed && t == Step(s, e) && Stores(c, s, e, t, c')
    ensures Lags(c', t)
  {
    if c' == Durable(t) {
      StepPaced(s, e);
      FreshLags(t);
    } else {
      match e
      case E(edit) => UnwrittenEdit(s, edit);
      case P(playing) => UnwrittenPlay(c, s, playing, t);
      case _ =>
        UnwrittenOthers(s, e, t);
        AlikeLags(c, s, t);
    }
  }

  lemma StaysClosed(s: Player, e: Event, t: Player)
    requires t == Step(s, e) && s.closed
    ensures t.closed
  {
  }

  /** At every point of every run of an open player the stored snapshot is that close. */
  lemma {:induction false} RunLags(states: seq<Player>, events: seq<Event>, store: seq<Snapshot>, n: nat)
    requires StoredRun(states, events, store) && Sound(states[0].deck) && Paced(states[0]) && n <= |events|
    requires !states[n].closed
    ensures Sound(states[n].deck) && Paced(states[n]) && Lags(store[n], states[n])
  {
    RunPaced(states, events, n);
    if n == 0 {
      FreshLags(states[0]);
    } else {
      if states[n - 1].closed {
        StaysClosed(states[n - 1], events[n - 1], states[n]);
      }
      RunLags(states, events, store, n - 1);
      StoreLags(store[n - 1], states[n - 1], events[n - 1], states[n], store[n]);
    }
  }

  // ---------------------------------------------------------------------------
  // What a crash loses
  // ---------------------------------------------------------------------------

  /** The song that the snapshot has in place of the current one. */
  function SongOf(c: Snapshot): Track
    requires c.current.Some? || c.queue != []
  {
    if c.current.Some? then c.current.value else c.queue[0]
  }

  /**
   A crash at any point restores the interrupted song first, unless it was past its middle, and then the queue in
   order; less than five seconds of its confirmed audio are played again.
   */
  lemma CrashKeepsSongs(states: seq<Player>, events: seq<Event>, store: seq<Snapshot>, n: nat)
    requires StoredRun(states, events, store) && Sound(states[0].deck) && Paced(states[0]) && n <= |events|
    requires !states[n].closed
    ensures var s, c := states[n], store[n];
      && Restored(c).Some? && Restored(c).value.modes == s.modes
      && (s.deck.current == None ==> Lineup(c) == Tracks(s.deck.queue))
      && (s.deck.current.Some? ==>
            && (c.current.Some? || c.queue != [])
            && Lineup(c) == (if PastHalf(SongOf(c)) then [] else [SongOf(c)]) + Tracks(s.deck.queue)
            && s.deck.current.value.offset <= SongOf(c).offset <= s.tape.confirmed
            && s.tape.confirmed < SongOf(c).offset + CHECKPOINT
            && (Started(s.tape) ==> SongOf(c) == s.deck.current.value.(offset := SongOf(c).offset)))
  {
    RunLags(states, events, store, n);
    LagKeepsSongs(store[n], states[n]);
  }

  lemma LagKeepsSongs(c: Snapshot, s: Player)
    requires Lags(c, s) && Sound(s.deck) && Paced(s)
    ensures Restored(c).Some? && Restored(c).value.modes == s.modes
    ensures s.deck.current == None ==> Lineup(c) == Tracks(s.deck.queue)
    ensures s.deck.current.Some? ==>
      && (c.current.Some? || c.queue != [])
      && Lineup(c) == (if PastHalf(SongOf(c)) then [] else [SongOf(c)]) + Tracks(s.deck.queue)
      && s.deck.current.value.offset <= SongOf(c).offset <= s.tape.confirmed
      && s.tape.confirmed < SongOf(c).offset + CHECKPOINT
      && (Started(s.tape) ==> SongOf(c) == s.deck.current.value.(offset := SongOf(c).offset))
  {
  }

  // ---------------------------------------------------------------------------
  // The history counts a song once
  // ---------------------------------------------------------------------------

  /** The restored player is summoned and its first song begins. */
  function Resumed(r: Player): Player {
    var s := Step(r, T(AttachVoice));
    var t := Step(s, P(SelectHead(false)));
    Step(t, P(FirstFrame(t.tape.sequence)))
  }

  lemma ResumedHistory(c: Snapshot)
    requires Restored(c).Some? && Lineup(c) != []
    ensures Resumed(Restored(c).value).tape.history == Heard(Remembered(c), Lineup(c)[0])
  {
    var r := Restored(c).value;
    assert Attach(r).voice.attached;
    var t := Select(Attach(r));
    assert t.deck.current == Some(Lineup(c)[0]) && t.tape.sequence == 1 && t.tape.startedSequence == 0;
    assert Unstarted(t, 1);
  }

  /** The interrupted song, as the snapshot describes it and as it was taken from the queue. */
  function CountedAs(c: Snapshot, s: Player): Track
    requires s.deck.current.Some? && (c.current.Some? || c.queue != [])
  {
    SongOf(c).(offset := s.deck.current.value.offset)
  }

  /** The history with the interrupted song counted once. */
  function Intended(c: Snapshot, s: Player): seq<Track>
    requires s.deck.current.Some? && (c.current.Some? || c.queue != [])
  {
    if Started(s.tape) then s.tape.history else Heard(s.tape.history, CountedAs(c, s))
  }

  /** The history after a crash, once the interrupted song plays again if it does. */
  function AfterCrash(c: Snapshot): seq<Track>
    requires Restored(c).Some? && (c.current.Some? || c.queue != [])
  {
    if PastHalf(SongOf(c)) then Remembered(c) else Resumed(Restored(c).value).tape.history
  }

  /** The snapshot has confirmed audio of a fresh song, but not its start. */
  predicate StartMissing(c: Snapshot, s: Player)
    requires s.deck.current.Some?
  {
    s.deck.current.value.offset == 0 && c.current.Some? && c.current.value.offset > 0 && !c.started
  }

  /** A full history of one song only, which one more start of that song would not change. */
  predicate Saturated(history: seq<Track>, t: Track) {
    |history| == MAX_HISTORY && forall i | 0 <= i < |history| :: history[i] == t
  }

  lemma {:induction false} ShiftSame(h: seq<Track>, t: Track, k: nat)
    requires |h| > 0 && k < |h| && h[1..] + [t] == h
    ensures h[|h| - 1 - k] == t
  {
    if k > 0 {
      ShiftSame(h, t, k - 1);
      assert (h[1..] + [t])[|h| - 1 - k] == h[|h| - k];
    }
  }

  lemma SaturatedIff(h: seq<Track>, t: Track)
    requires |h| <= MAX_HISTORY && t.offset == 0
    ensures Heard(h, t) == h <==> Saturated(h, t)
  {
    if |h| == MAX_HISTORY {
      assert Heard(h, t) == h[1..] + [t];
      if Heard(h, t) == h {
        forall i | 0 <= i < |h|
          ensures h[i] == t
        {
          ShiftSame(h, t, |h| - 1 - i);
        }
      }
    }
  }

  lemma AfterCrashIs(c: Snapshot, s: Player)
    requires Lags(c, s) && Sound(s.deck) && Paced(s) && s.deck.current.Some? && Restored(c).Some?
    ensures c.current.Some? || c.queue != []
    ensures AfterCrash(c) == if PastHalf(SongOf(c)) then Remembered(c) else Heard(Remembered(c), SongOf(c))
  {
    LagKeepsSongs(c, s);
    if !PastHalf(SongOf(c)) {
      ResumedHistory(c);
    }
  }

  /** A song that has started is in the history, and a crash leaves it there once. */
  lemma StartedCounts(c: Snapshot, s: Player)
    requires Lags(c, s) && Paced(s) && Started(s.tape) && s.deck.current.Some?
    ensures Trails(c, s)
    ensures SongOf(c).offset > 0 || PastHalf(SongOf(c)) ==> Remembered(c) == s.tape.history
    ensures SongOf(c).offset == 0 && !PastHalf(SongOf(c)) ==> Remembered(c) + [SongOf(c)] == s.tape.history
  {
  }

  lemma UnstartedCounts(c: Snapshot, s: Player)
    requires Lags(c, s) && Paced(s) && !Started(s.tape) && s.deck.current.Some?
    ensures (c.current.Some? || c.queue != []) && Remembered(c) == s.tape.history
    ensures SongOf(c).offset >= s.deck.current.value.offset
    ensures SongOf(c).offset == 0 ==> !PastHalf(SongOf(c)) && CountedAs(c, s) == SongOf(c)
    ensures StartMissing(c, s) <==> SongOf(c).offset > 0 && s.deck.current.value.offset == 0
  {
  }

  /**
   From a snapshot that close, the song is counted exactly once, unless the snapshot has its audio without its start.
   */
  lemma CountsOnceIff(c: Snapshot, s: Player)
    requires Lags(c, s) && Sound(s.deck) && Paced(s) && s.deck.current.Some? && Restored(c).Some?
    ensures AfterCrash(c) == Intended(c, s) <==> !StartMissing(c, s) || Saturated(s.tape.history, CountedAs(c, s))
  {
    AfterCrashIs(c, s);
    if Started(s.tape) {
      StartedCounts(c, s);
    } else {
      UnstartedCounts(c, s);
      if StartMissing(c, s) {
        SaturatedIff(s.tape.history, CountedAs(c, s));
      }
    }
  }

  // ---------------------------------------------------------------------------
  // When that happens in a run
  // ---------------------------------------------------------------------------

  /** A frame of a fresh song is confirmed but its start is not yet announced. */
  predicate BetweenFrameAndStart(s: Player) {
    s.deck.current.Some? && !Started(s.tape) && s.deck.current.value.offset == 0 && s.tape.confirmed > 0
  }

  /** At k, in the attempt that is at n, the store had the state between the first frame and the start. */
  predicate WrittenInGap(states: seq<Player>, store: seq<Snapshot>, k: nat, n: nat)
    requires k <= n < |states| && |store| == |states|
  {
    && store[k] == Durable(states[k]) && BetweenFrameAndStart(states[k])
    && states[k].tape.sequence == states[n].tape.sequence
  }

  /** While an attempt has not started, it had not started before either. */
  predicate SameAttempt(s: Player, t: Player)
    requires t.deck.current.Some?
  {
    if s.deck.current == None then s.tape.sequence < t.tape.sequence
    else
      && !Started(s.tape) && s.tape.sequence == t.tape.sequence && s.tape.confirmed <= t.tape.confirmed
      && s.deck.current.value.offset == t.deck.current.value.offset
  }

  lemma StepBefore(s: Player, e: Event, t: Player)
    requires Sound(s.deck) && t == Step(s, e) && t.deck.current.Some? && !Started(t.tape) && !t.closed
    ensures SameAttempt(s, t) && !s.closed
  {
    if s.closed {
      StaysClosed(s, e, t);
    }
    if s.deck.current.Some? {
      CurrentMoves(s, e, t);
      TapeGrows(s, e, t);
    } else {
      Selected(s, e, t);
    }
  }

  lemma StoresOne(c: Snapshot, s: Player, e: Event, t: Player, c': Snapshot)
    requires Stores(c, s, e, t, c')
    ensures c' == Durable(t) || c' == c
  {
  }

  /** The point before one where an open player's attempt has not started. */
  lemma Before(states: seq<Player>, events: seq<Event>, store: seq<Snapshot>, n: nat)
    requires StoredRun(states, events, store) && Sound(states[0].deck) && Paced(states[0]) && 0 < n <= |events|
    requires !states[n].closed && states[n].deck.current.Some? && !Started(states[n].tape)
    ensures !states[n - 1].closed && SameAttempt(states[n - 1], states[n]) && Lags(store[n - 1], states[n - 1])
    ensures store[n] == Durable(states[n]) || store[n] == store[n - 1]
  {
    var s, e, t := states[n - 1], events[n - 1], states[n];
    RunSound(states, events, n - 1);
    StepBefore(s, e, t);
    RunLags(states, events, store, n - 1);
    StoresOne(store[n - 1], s, e, t, store[n]);
  }

  lemma {:induction false} MissingWasWritten(states: seq<Player>, events: seq<Event>, store: seq<Snapshot>, n: nat)
    returns (k: nat)
    requires StoredRun(states, events, store) && Sound(states[0].deck) && Paced(states[0]) && n <= |events|
    requires !states[n].closed && states[n].deck.current.Some? && !Started(states[n].tape)
    requires StartMissing(store[n], states[n])
    ensures k <= n && WrittenInGap(states, store, k, n)
  {
    if store[n] == Durable(states[n]) {
      k := n;
    } else {
      Before(states, events, store, n);
      k := MissingWasWritten(states, events, store, n - 1);
    }
  }

  /** Where an attempt has not started, the point before it is as Before says. */
  predicate Follows(c: Snapshot, s: Player, c': Snapshot, t: Player) {
    !t.closed && t.deck.current.Some? && !Started(t.tape) ==>
      !s.closed && SameAttempt(s, t) && Lags(c, s) && (c' == Durable(t) || c' == c)
  }

  ghost predicate Followed(states: seq<Player>, store: seq<Snapshot>, k: nat, n: nat) {
    && k <= n < |states| == |store|
    && forall m | k <= m < n ::
         states[k].tape.sequence <= states[m].tape.sequence && Follows(store[m], states[m], store[m + 1], states[m + 1])
  }

  lemma RunFollows(states: seq<Player>, events: seq<Event>, store: seq<Snapshot>, k: nat, n: nat)
    requires StoredRun(states, events, store) && Sound(states[0].deck) && Paced(states[0]) && k <= n <= |events|
    ensures Followed(states, store, k, n)
  {
    forall m | k <= m < n
      ensures states[k].tape.sequence <= states[m].tape.sequence
      ensures Follows(store[m], states[m], store[m + 1], states[m + 1])
    {
      StaysBegun(states, events, 0, k, m);
      var t := states[m + 1];
      if !t.closed && t.deck.current.Some? && !Started(t.tape) {
        Before(states, events, store, m + 1);
      }
    }
  }

  lemma {:induction false} StaysMissing(states: seq<Player>, store: seq<Snapshot>, k: nat, n: nat)
    requires Followed(states, store, k, n) && states[k].tape.sequence == states[n].tape.sequence
    requires !states[n].closed && states[n].deck.current.Some? && !Started(states[n].tape)
    requires states[k].deck.current.Some? && StartMissing(store[k], states[k])
    ensures StartMissing(store[n], states[n])
  {
    if k < n {
      assert Follows(store[n - 1], states[n - 1], store[n - 1 + 1], states[n - 1 + 1]);
      StaysMissing(states, store, k, n - 1);
      MissingStays(store[n - 1], states[n - 1], states[n], store[n]);
    }
  }

  lemma GapIsMissing(s: Player)
    requires BetweenFrameAndStart(s)
    ensures StartMissing(Durable(s), s)
  {
  }

  lemma MissingStays(c: Snapshot, s: Player, t: Player, c': Snapshot)
    requires Lags(c, s) && s.deck.current.Some? && StartMissing(c, s)
    requires t.deck.current.Some? && !Started(t.tape) && SameAttempt(s, t) && (c' == Durable(t) || c' == c)
    ensures StartMissing(c', t)
  {
  }

  /**
   After a crash at any point of a run the interrupted song is counted exactly once, unless it has not started yet and
   a snapshot was written between its first confirmed frame and the crash.
   */
  lemma CrashCountsOnceIff(states: seq<Player>, events: seq<Event>, store: seq<Snapshot>, n: nat)
    requires StoredRun(states, events, store) && Sound(states[0].deck) && Paced(states[0]) && n <= |events|
    requires !states[n].closed && states[n].deck.current.Some?
    ensures var s, c := states[n], store[n];
      && Restored(c).Some? && (c.current.Some? || c.queue != [])
      && (AfterCrash(c) == Intended(c, s) <==>
            || Started(s.tape) || (forall k: nat | k <= n :: !WrittenInGap(states, store, k, n))
            || Saturated(s.tape.history, CountedAs(c, s)))
  {
    var s, c := states[n], store[n];
    RunLags(states, events, store, n);
    LagKeepsSongs(c, s);
    CountsOnceIff(c, s);
    if StartMissing(c, s) {
      var _ := MissingWasWritten(states, events, store, n);
    } else if !Started(s.tape) {
      forall k: nat | k <= n
        ensures !WrittenInGap(states, store, k, n)
      {
        if WrittenInGap(states, store, k, n) {
          GapIsMissing(states[k]);
          RunFollows(states, events, store, k, n);
          StaysMissing(states, store, k, n);
        }
      }
    }
  }

  // ---------------------------------------------------------------------------
  // A lost start, and Previous after it
  // ---------------------------------------------------------------------------

  /** A step that writes. */
  lemma ThenWrite(states: seq<Player>, events: seq<Event>, store: seq<Snapshot>, e: Event)
    returns (more: seq<Player>, events': seq<Event>, store': seq<Snapshot>)
    requires StoredRun(states, events, store) && !Last(states).closed
    ensures events' == events + [e] && more == states + [Step(Last(states), e)]
    ensures store' == store + [Durable(Last(more))] && StoredRun(more, events', store')
  {
    more, events' := Then(states, events, e);
    store' := store + [Durable(Last(more))];
  }

  /** A step after which nothing has to be written. */
  lemma ThenNoWrite(states: seq<Player>, events: seq<Event>, store: seq<Snapshot>, e: Event)
    returns (more: seq<Player>, events': seq<Event>, store': seq<Snapshot>)
    requires StoredRun(states, events, store) && !Writes(Last(states), e)
    ensures events' == events + [e] && more == states + [Step(Last(states), e)]
    ensures store' == store + [store[|store| - 1]] && StoredRun(more, events', store')
  {
    more, events' := Then(states, events, e);
    store' := store + [store[|store| - 1]];
  }

  /** A fresh song begins and sends its first frame, which writes nothing. */
  lemma FirstFrameSent(t: Track) returns (states: seq<Player>, events: seq<Event>, store: seq<Snapshot>)
    requires t.offset == 0 && t.live
    ensures StoredRun(states, events, store) && states[0] == Fresh([Ready(t, 0)], [], Off)
    ensures var s := Last(states);
      && s.deck.current == Some(t) && s.deck.queue == [] && s.tape == Tape(1, 0, FRAME, 0, [])
      && s.modes == Modes(Off, false) && !s.closed
  {
    var s0 := Fresh([Ready(t, 0)], [], Off);
    states, events, store := [s0], [], [Durable(s0)];
    states, events, store := ThenNoWrite(states, events, store, T(AttachVoice));
    states, events, store := ThenNoWrite(states, events, store, P(SelectHead(false)));
    states, events, store := ThenNoWrite(states, events, store, P(FrameSent(1)));
  }

  /** The snapshot that a command in the gap writes: audio, and no start. */
  function GapSnapshot(t: Track, mode: Loop): Snapshot {
    Snapshot(Modes(mode, false), Some(t.(offset := FRAME)), false, [], [])
  }

  /** A command writes a snapshot before the start is announced: after a crash the song is never counted. */
  lemma StartLost(t: Track, mode: Loop) returns (states: seq<Player>, events: seq<Event>, store: seq<Snapshot>)
    requires t.offset == 0 && t.live
    ensures StoredRun(states, events, store) && states[0] == Fresh([Ready(t, 0)], [], Off)
    ensures var s, c := Last(states), store[|store| - 1];
      && s.deck.current.Some? && c == GapSnapshot(t, mode) && Restored(c).Some?
      && Intended(c, s) == [t] && AfterCrash(c) == []
  {
    states, events, store := FirstFrameSent(t);
    states, events, store := ThenWrite(states, events, store, C(SetLoop(mode)));
    assert Last(states).tape == Tape(1, 0, FRAME, 0, []);
    ResumedHistory(GapSnapshot(t, mode));
  }

  /** The lost song resumes after the crash, and Previous then reads before the start of the history. */
  lemma PreviousCanPanic(t: Track, mode: Loop) returns (states: seq<Player>, events: seq<Event>, store: seq<Snapshot>)
    requires t.offset == 0 && t.live
    ensures StoredRun(states, events, store) && states[0] == Fresh([Ready(t, 0)], [], Off)
    ensures var c := Restored(store[|store| - 1]); c.Some? && PreviousReply(Resumed(c.value)) == Panics
  {
    states, events, store := StartLost(t, mode);
    var r := Restored(GapSnapshot(t, mode)).value;
    ResumedHistory(GapSnapshot(t, mode));
    assert Unstarted(Select(Attach(r)), 1);
  }
}
