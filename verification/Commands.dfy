/**
 What the commands do to the songs lined up, what starts and holds playback, and what makes tickets stale.
 */
module Commands {
  import opened Prelude
  import opened PlayerState
  import opened SlotIdentity
  import opened Progress
  import opened Restart

  // ---------------------------------------------------------------------------
  // The songs after each command
  // ---------------------------------------------------------------------------

  /** What is lined up: the current song, if any, and then the queue. */
  function Songs(d: Deck): seq<Track> {
    (if d.current.Some? then [d.current.value] else []) + Tracks(d.queue)
  }

  function Ahead(s: Player): seq<Track> {
    Songs(s.deck)
  }

  lemma TracksAppend(a: Queue, b: Queue)
    ensures Tracks(a + b) == Tracks(a) + Tracks(b)
  {
  }

  /** A caller may add songs: its ticket is current, the voice is attached and there is room for all of them. */
  predicate Takes(s: Player, n: nat, ticket: nat) {
    !s.closed && s.voice.attached && ticket == s.generation && |s.deck.queue| + n <= 1000
  }

  /** New songs go to the end in the order given, ready to play; all of them or none. */
  lemma EnqueueAppends(s: Player, tracks: seq<Track>, ticket: nat, t: Player)
    requires t == Step(s, E(EnqueueMany(tracks, ticket)))
    ensures !Takes(s, |tracks|, ticket) ==> t == s
    ensures Takes(s, |tracks|, ticket) ==>
      && Tracks(t.deck.queue) == Tracks(s.deck.queue) + tracks && s.deck.queue <= t.deck.queue
      && (forall i | |s.deck.queue| <= i < |t.deck.queue| :: !t.deck.queue[i].pending && t.deck.queue[i].job == 0)
      && !t.halted && t.deck.current == s.deck.current && t.deck.jobs == s.deck.jobs
  {
    if t != s {
      TracksAppend(s.deck.queue, Slots(tracks, false, 0, s.deck.nextOcc));
    }
  }

  /** A collection of 1 to 500 songs goes to the end as pending slots, position by position, under a new job. */
  lemma CollectionAppends(s: Player, tracks: seq<Track>, ticket: nat, t: Player)
    requires t == Step(s, E(BeginCollection(tracks, ticket)))
    ensures var taken := Takes(s, |tracks|, ticket) && 1 <= |tracks| <= 500;
      && (!taken ==> t == s)
      && (taken ==>
            && Tracks(t.deck.queue) == Tracks(s.deck.queue) + tracks && s.deck.queue <= t.deck.queue
            && (forall k | |s.deck.queue| <= k < |t.deck.queue| ::
                  var e := t.deck.queue[k];
                  e.pending && e.job == s.deck.nextJob + 1 && e.position == k - |s.deck.queue|)
            && !t.halted && t.deck.current == s.deck.current)
  {
    if t != s {
      TracksAppend(s.deck.queue, Slots(tracks, true, s.deck.nextJob + 1, s.deck.nextOcc));
    }
  }

  /** Removing takes out the song at that place and no other. */
  lemma RemovePlays(s: Player, position: int, t: Player)
    requires t == Step(s, E(RemoveAt(position)))
    ensures var q := s.deck.queue;
      if 1 <= position <= |q| then
        && Tracks(t.deck.queue) == Tracks(q[..position - 1]) + Tracks(q[position..])
        && t.deck.current == s.deck.current
      else t == s
  {
    var q := s.deck.queue;
    if t != s {
      TracksAppend(q[..position - 1], q[position..]);
    }
  }

  /** Jumping ends the current song, and the song at that place is next. */
  lemma JumpPlays(s: Player, position: int, t: Player)
    requires t == Step(s, E(JumpTo(position)))
    ensures if 1 <= position <= |s.deck.queue| then Ahead(t) == Tracks(s.deck.queue)[position - 1..] else t == s
  {
    if Upcoming(s.deck, position) {
      JumpSongs(s.deck, position);
    }
  }

  lemma JumpSongs(d: Deck, position: int)
    requires Upcoming(d, position)
    ensures Songs(Jump(d, position)) == Tracks(d.queue)[position - 1..]
  {
    assert Jump(d, position).queue == d.queue[position - 1..];
    assert Tracks(d.queue[position - 1..]) == Tracks(d.queue)[position - 1..];
  }

  /** Skipping n drops the first n of what is lined up, the current song first; of 1 to 1001. */
  lemma SkipPlays(s: Player, count: int, t: Player)
    requires t == Step(s, E(SkipN(count)))
    ensures if 1 <= count <= 1001 then
        && Ahead(t) == Ahead(s)[Min(count, |Ahead(s)|)..] && t.deck.current == None
        && t.networkAttempts == 0 && t.halted == (s.halted && s.networkAttempts == 0)
      else t == s
  {
    if CanSkip(count) {
      SkipDeckSongs(s.deck, count);
    }
  }

  lemma SkipDeckSongs(d: Deck, count: int)
    requires CanSkip(count)
    ensures SkipDeck(d, count).current == None
    ensures Songs(SkipDeck(d, count)) == Songs(d)[Min(count, |Songs(d)|)..]
  {
    var n := Min(if d.current.Some? then count - 1 else count, |d.queue|);
    assert SkipDeck(d, count).queue == d.queue[n..];
    assert Tracks(d.queue[n..]) == Tracks(d.queue)[n..];
  }

  /** Replaying puts the current song first, from its beginning. */
  lemma ReplayPlays(s: Player, t: Player)
    requires t == Step(s, E(ReplayCurrent))
    ensures if s.deck.current.Some? && |s.deck.queue| < 1000 then
        && t.deck.current == None && !t.deck.queue[0].pending
        && Ahead(t) == [s.deck.current.value.(offset := 0)] + Tracks(s.deck.queue)
      else t == s
  {
    if t != s {
      var front := [Ready(Rewound(s.deck.current.value), s.deck.nextOcc)];
      TracksAppend(front, s.deck.queue);
      assert Tracks(front) == [s.deck.current.value.(offset := 0)];
      assert [] + Tracks(t.deck.queue) == Tracks(t.deck.queue);
    }
  }

  /** The songs heard before the current one: a current song that has started is the last in the history. */
  function Earlier(s: Player): seq<Track> {
    var h := s.tape.history;
    if s.deck.current.Some? && Started(s.tape) && h != [] then h[..|h| - 1] else h
  }

  /**
   Previous plays the last song heard before the current one, from its beginning, and then the current one; that song
   is taken off the history, so that history and next song together are the songs heard before.
   */
  lemma PreviousPlays(s: Player, t: Player)
    requires t == Step(s, E(PlayPrevious)) && PreviousReply(s) == Done
    ensures Earlier(s) != []
    ensures var last := Earlier(s)[|Earlier(s)| - 1];
      && t.tape.history + [last] == Earlier(s)
      && Ahead(t) == [last.(offset := 0)] + Ahead(s)
      && t.deck.current == None && !t.deck.queue[0].pending && !t.halted
  {
    BackToSongs(s.deck, s.tape.history[Behind(s) - 1]);
    assert t.tape.history == s.tape.history[..Behind(s) - 1];
  }

  lemma BackToSongs(d: Deck, earlier: Track)
    ensures var t := BackTo(d, earlier);
      Songs(t) == [earlier.(offset := 0)] + Songs(d) && t.current == None && t.queue != [] && !t.queue[0].pending
  {
    var front := [Ready(Rewound(earlier), d.nextOcc)];
    var next := if d.current.Some? then [Ready(d.current.value, d.nextOcc + 1)] else [];
    TracksAppend(front + next, d.queue);
    TracksAppend(front, next);
    assert Tracks(front) == [earlier.(offset := 0)];
    assert Tracks(next) == if d.current.Some? then [d.current.value] else [];
  }

  /** Previous is done exactly with voice, an earlier song and room for it and the current one; else nothing happens. */
  lemma PreviousDoneIff(s: Player, t: Player)
    requires t == Step(s, E(PlayPrevious)) && Sound(s.deck) && Paced(s)
    ensures PreviousReply(s) == Done <==>
      && !s.closed && s.voice.attached && Earlier(s) != []
      && |s.deck.queue| + 1 + (if s.deck.current.Some? then 1 else 0) <= 1000
    ensures PreviousReply(s) != Done ==> t == s
  {
  }

  /** Clearing, stopping and leaving empty the queue and cancel every job; clearing alone lets the song play on. */
  lemma ClearingEmpties(s: Player, c: Control, t: Player)
    requires t == Step(s, C(c)) && (c == ClearQueue || c == StopPlayback || c == LeaveVoice)
    ensures t.deck.queue == [] && (forall id | id in t.deck.jobs :: t.deck.jobs[id].cancelled)
    ensures t.modes == Modes(Off, s.modes.autoplay) && !t.halted && t.networkAttempts == 0
    ensures c == ClearQueue ==> t.deck.current == s.deck.current && t.voice == s.voice
    ensures c != ClearQueue ==> t.deck.current == None && !t.providerBlocked
    ensures c == StopPlayback ==> t.voice.attached == s.voice.attached
    ensures c == LeaveVoice ==> !t.voice.attached
  {
  }

  /** The job whose last wanted slot a command drops is cancelled; one that still wants a slot is not. */
  lemma LastSlotCancels(s: Player, position: int, t: Player)
    requires t == Step(s, E(RemoveAt(position))) && 1 <= position <= |s.deck.queue|
    requires Sound(s.deck) && s.deck.queue[position - 1].job in s.deck.jobs
    requires !s.deck.jobs[s.deck.queue[position - 1].job].cancelled
    ensures var id := s.deck.queue[position - 1].job;
      && id in t.deck.jobs
      && (t.deck.jobs[id].cancelled <==> forall i | 0 <= i < |t.deck.jobs[id].wanted| :: !t.deck.jobs[id].wanted[i])
  {
    var e := s.deck.queue[position - 1];
    TallyPositive(s.deck.queue, Slot(e.job, e.position));
    assert e in s.deck.queue && Slot(e.job, e.position)(e);
    assert e.position < |s.deck.jobs[e.job].wanted|;
  }

  // ---------------------------------------------------------------------------
  // Starts
  // ---------------------------------------------------------------------------

  /** Nothing keeps the head of the queue from being played. */
  predicate Playable(s: Player, permit: bool) {
    && s.voice.attached && !s.voice.blocked && s.voice.recovering == None && !s.closed && !s.halted
    && s.deck.attempt == None && (s.providerBlocked ==> permit) && s.deck.queue != [] && !s.deck.queue[0].pending
  }

  /** The scheduler plays the head exactly when nothing keeps it back, in a new attempt from its stored offset. */
  lemma HeadPlaysIff(s: Player, permit: bool, t: Player)
    requires t == Step(s, P(SelectHead(permit))) && Sound(s.deck)
    ensures !Playable(s, permit) ==> t == s
    ensures Playable(s, permit) ==>
      && t.deck.current == Some(s.deck.queue[0].track) && Ahead(t) == Ahead(s)
      && t.tape.sequence == s.tape.sequence + 1 && t.tape.confirmed == s.deck.queue[0].track.offset
      && t.deck.attempt == Some(Attempt(s.deck.queue[0].track.offset, false)) && t.tape.history == s.tape.history
  {
    if t != s {
      var q := s.deck.queue;
      assert Tracks(q) == [q[0].track] + Tracks(q[1..]);
      assert [] + Tracks(q) == Tracks(q);
    }
  }

  /** No other step starts a song. */
  lemma OnlyHeadPlays(s: Player, e: Event, t: Player)
    requires t == Step(s, e) && s.deck.current == None && t.deck.current.Some?
    ensures e.P? && e.playing.SelectHead? && Playable(s, e.playing.permit)
  {
    OnlySelectionStarts(s, e);
  }

  /** Final metadata replace the song before its first frame, at the place where it is; later they change nothing. */
  lemma MetadataReplace(s: Player, sequence: nat, final: Track, t: Player)
    requires t == Step(s, P(SetTrack(sequence, final)))
    ensures var live := s.deck.current.Some? && s.deck.attempt.Some? && !s.deck.attempt.value.interrupted && !s.closed;
      if live && s.tape.sequence == sequence && !Started(s.tape) then
        && Ahead(t) == [final.(offset := s.deck.current.value.offset)] + Tracks(s.deck.queue)
        && t.deck.queue == s.deck.queue && t.tape == s.tape
      else t == s
  {
  }

  /** A result for a job that has ended or was cancelled, or whose slot is gone, or while blocked, changes no song. */
  lemma LateResultIgnored(s: Player, job: nat, r: Result, t: Player)
    requires t == Step(s, R(CommitResult(job, r)))
    requires s.providerBlocked || job !in s.deck.jobs || s.deck.jobs[job].cancelled
      || forall e | e in s.deck.queue :: !AtSlot(e, job, r.index)
    ensures t == s
  {
    var i := Find(s.deck.queue, job, r.index);
    assert i < |s.deck.queue| ==> s.deck.queue[i] in s.deck.queue;
  }

  /** The first frame of a fresh song makes it the last in the history, of which the newest 100 stay. */
  lemma StartExtendsHistory(s: Player, sequence: nat, t: Player)
    requires t == Step(s, P(FirstFrame(sequence))) && Paced(s)
    requires s.deck.current.Some? && s.deck.attempt.Some? && !s.deck.attempt.value.interrupted && !s.closed
    requires s.tape.sequence == sequence && !Started(s.tape)
    ensures Started(t.tape) && t.deck == s.deck
    ensures var h := s.tape.history;
      t.tape.history ==
        if s.deck.current.value.offset > 0 then h
        else (if |h| < 100 then h else h[1..]) + [s.deck.current.value]
  {
  }

  /** Five seconds of audio in one attempt close the network and the voice incident, and no frame before that does. */
  lemma SteadyAudioRenews(s: Player, sequence: nat, t: Player)
    requires t == Step(s, P(FrameSent(sequence))) && Budgeted(s)
    requires s.deck.current.Some? && s.deck.attempt.Some? && !s.deck.attempt.value.interrupted && !s.closed
    requires s.tape.sequence == sequence
    ensures if t.tape.confirmed - s.deck.current.value.offset >= 5_000_000_000
      then t.networkAttempts == 0 && !t.voice.incident && t.voice.attempts == 0
      else t.networkAttempts == s.networkAttempts && t.voice == s.voice
  {
  }

  // ---------------------------------------------------------------------------
  // What holds playback, and what lets it go on
  // ---------------------------------------------------------------------------

  /** The steps that release a halted queue: new songs, going back, emptying it, skipping a failing song, resuming. */
  predicate Releases(s: Player, e: Event) {
    match e
    case E(edit) =>
      (match edit
       case EnqueueMany(tracks, ticket) => Takes(s, |tracks|, ticket)
       case BeginCollection(tracks, ticket) => Takes(s, |tracks|, ticket) && 1 <= |tracks| <= 500
       case SkipN(count) => 1 <= count <= 1001 && s.networkAttempts > 0
       case PlayPrevious => PreviousReply(s) == Done
       case _ => false)
    case C(control) =>
      (match control
       case ClearQueue => true
       case StopPlayback => true
       case LeaveVoice => true
       case Pause(paused) => !paused && !(s.voice.blocked && s.deck.queue != []) && !s.providerBlocked
       case _ => false)
    case _ => false
  }

  lemma ReleaseControl(s: Player, c: Control)
    requires s.halted
    ensures !ControlStep(s, c).halted <==> Releases(s, C(c))
  {
  }

  lemma ReleaseEdit(s: Player, e: Edit)
    requires s.halted
    ensures !EditStep(s, e).halted <==> Releases(s, E(e))
  {
  }

  lemma ReleaseOthers(s: Player, e: Event, t: Player)
    requires s.halted && t == Step(s, e) && !e.E? && !e.C?
    ensures t.halted
  {
  }

  /** A halted queue is released by exactly those steps. */
  lemma HaltedUntil(s: Player, e: Event, t: Player)
    requires s.halted && t == Step(s, e)
    ensures !t.halted <==> Releases(s, e)
  {
    match e
    case E(edit) => ReleaseEdit(s, edit);
    case C(control) => ReleaseControl(s, control);
    case _ => ReleaseOthers(s, e, t);
  }

  // ---------------------------------------------------------------------------
  // Tickets
  // ---------------------------------------------------------------------------

  predicate NewGeneration(s: Player, e: Event) {
    (e.C? && (e.control.ClearQueue? || e.control.StopPlayback? || e.control.LeaveVoice?))
    || (e.T? && e.transport.AttachVoice? && !s.closed && !s.voice.attached)
  }

  /** The generation counts the clears, stops, leaves and attachments. */
  lemma GenerationStep(s: Player, e: Event, t: Player)
    requires t == Step(s, e)
    ensures t.generation == s.generation + if NewGeneration(s, e) then 1 else 0
  {
  }

  ghost predicate Generations(states: seq<Player>, events: seq<Event>, n: nat) {
    && |states| == |events| + 1 && n <= |events|
    && forall i | 0 <= i < n ::
         states[i + 1].generation == states[i].generation + if NewGeneration(states[i], events[i]) then 1 else 0
  }

  lemma RunGenerations(states: seq<Player>, events: seq<Event>, n: nat)
    requires Run(states, events) && n <= |events|
    ensures Generations(states, events, n)
  {
    forall i | 0 <= i < n
      ensures states[i + 1].generation == states[i].generation + if NewGeneration(states[i], events[i]) then 1 else 0
    {
      GenerationStep(states[i], events[i], states[i + 1]);
    }
  }

  lemma {:induction false} GenerationGrows(states: seq<Player>, events: seq<Event>, a: nat, b: nat)
    requires Generations(states, events, b) && a <= b
    ensures states[a].generation <= states[b].generation
  {
    if a < b {
      GenerationGrows(states, events, a, b - 1);
      assert states[b - 1 + 1].generation >= states[b - 1].generation;
    }
  }

  predicate Adds(e: Event, ticket: nat) {
    e.E? && ((e.edit.EnqueueMany? && e.edit.ticket == ticket) || (e.edit.BeginCollection? && e.edit.ticket == ticket))
  }

  /** A search begun before the queue was cleared, stopped or left adds nothing afterwards, in any run. */
  lemma StaleTicketRefused(states: seq<Player>, events: seq<Event>, a: nat, k: nat, b: nat)
    requires Run(states, events) && a <= k < b < |events| && NewGeneration(states[k], events[k])
    requires Adds(events[b], states[a].generation)
    ensures states[b + 1] == states[b]
  {
    RunGenerations(states, events, b);
    GenerationGrows(states, events, a, k);
    GenerationGrows(states, events, k + 1, b);
    assert states[k + 1].generation == states[k].generation + 1;
    RefusesStale(states[b], events[b], states[b + 1], states[a].generation);
  }

  lemma RefusesStale(s: Player, e: Event, t: Player, ticket: nat)
    requires t == Step(s, e) && Adds(e, ticket) && ticket < s.generation
    ensures t == s
  {
  }
}
