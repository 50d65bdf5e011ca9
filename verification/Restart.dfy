/**
 Snapshots and restarts: what a restored player holds, and when Previous reads before the start of the history.
 */
module Restart {
  import opened Prelude
  import opened PlayerState
  import opened SlotIdentity
  import opened Progress

  datatype Snapshot = Snapshot(
    modes: Modes, current: Option<Track>, started: bool, queue: seq<Track>, history: seq<Track>)

  function Tracks(q: Queue): (tracks: seq<Track>)
    ensures |tracks| == |q| && forall i | 0 <= i < |q| :: tracks[i] == q[i].track
  {
    seq(|q|, i requires 0 <= i < |q| => q[i].track)
  }

  /** What the store is given: the current song with its confirmed progress, the queue, the history. */
  function Durable(s: Player): Snapshot {
    Snapshot(s.modes, if s.deck.current.Some? then Some(Saved(s)) else None,
             s.deck.current.Some? && Started(s.tape), Tracks(s.deck.queue), s.tape.history)
  }

  predicate Again(c: Snapshot) {
    c.current.Some? && !PastHalf(c.current.value)
  }

  function Lineup(c: Snapshot): seq<Track> {
    (if Again(c) then [c.current.value] else []) + c.queue
  }

  /** The history without a song that will be announced again. */
  function Remembered(c: Snapshot): seq<Track> {
    if c.started && Again(c) && c.current.value.offset == 0 && c.history != [] then c.history[..|c.history| - 1]
    else c.history
  }

  function Restored(c: Snapshot): Option<Player> {
    if |Lineup(c)| > MAX_QUEUE + 1 then None
    else Some(Fresh(Slots(Lineup(c), false, 0, 0), Remembered(c), c.modes.loop).(modes := c.modes))
  }

  // ---------------------------------------------------------------------------
  // Every snapshot restores
  // ---------------------------------------------------------------------------

  /**
   The interrupted song comes first, with its confirmed progress, unless past its middle; then the queue in order. The
   history stays, but for a song that was announced without a confirmed frame: it will be announced again.
   */
  lemma SnapshotRestores(s: Player)
    requires Sound(s.deck) && Paced(s)
    ensures var r := Restored(Durable(s));
      && r.Some? && Sound(r.value.deck) && Paced(r.value) && Budgeted(r.value)
      && Tracks(r.value.deck.queue) ==
           (if s.deck.current.Some? && !PastHalf(Saved(s)) then [Saved(s)] else []) + Tracks(s.deck.queue)
      && r.value.modes == s.modes && r.value.deck.current == None && !r.value.voice.attached
      && (forall e | e in r.value.deck.queue :: !e.pending)
      && var h, heard := s.tape.history, s.deck.current.Some? && Started(s.tape);
         r.value.tape.history == if heard && s.tape.confirmed == 0 && h != [] then h[..|h| - 1] else h
  {
    var c := Durable(s);
    FreshSound(Lineup(c), Remembered(c), c.modes.loop);
    assert Tracks(Slots(Lineup(c), false, 0, 0)) == Lineup(c);
  }

  /** At every point of every run, the snapshot restores. */
  lemma EverySnapshotRestores(states: seq<Player>, events: seq<Event>, n: nat)
    requires Run(states, events) && Sound(states[0].deck) && Paced(states[0]) && n <= |events|
    ensures Restored(Durable(states[n])).Some?
  {
    RunPaced(states, events, n);
    SnapshotRestores(states[n]);
  }

  /** A restart that plays nothing loses nothing. */
  lemma RestoreTwice(c: Snapshot)
    requires Restored(c).Some?
    ensures Restored(Durable(Restored(c).value)) == Restored(c)
  {
    var r := Restored(c).value;
    assert Tracks(r.deck.queue) == Lineup(c);
    assert Lineup(Durable(r)) == Lineup(c);
  }

  // ---------------------------------------------------------------------------
  // Previous reads before the start of the history
  // ---------------------------------------------------------------------------

  /** Previous indexes outside the history exactly when a resumed song has started with no history; only then. */
  lemma PreviousPanicsIff(s: Player)
    requires Sound(s.deck) && Paced(s)
    ensures PreviousReply(s) == Panics <==>
      && s.voice.attached && !s.closed && |s.deck.queue| + 2 <= MAX_QUEUE
      && s.deck.current.Some? && Started(s.tape) && s.tape.history == []
    ensures PreviousReply(s) == Panics ==> s.deck.current.value.offset > 0
  {
  }
}
