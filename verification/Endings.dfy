/**
 What becomes of a song when its attempt ends: a table over the endings, for every state of the player.
 */
module Endings {
  import opened Prelude
  import opened PlayerState

  /** The attempt was neither cancelled nor shut down. */
  predicate Live(s: Player) {
    s.deck.attempt.Some? && s.deck.current.Some? && !s.closed
  }

  /** A song is past its middle when twice its progress is its length or more; live songs have no middle. */
  lemma PastHalfIff(t: Track)
    ensures PastHalf(t) <==> !t.live && t.duration > 0 && 2 * t.offset >= t.duration
  {
  }

  /** The current song is at the head of the queue again with its confirmed progress, unless it is past its middle. */
  predicate SongReturns(s: Player, t: Player)
    requires s.deck.current.Some?
  {
    t.deck.queue == (if PastHalf(Saved(s)) then [] else [Ready(Saved(s), s.deck.currentOcc)]) + s.deck.queue
  }

  /** The attempt is over, and nothing changed but queue, voice, modes of holding playback back, and song numbers. */
  predicate Over(s: Player, t: Player) {
    && t.deck.current == None && t.deck.attempt == None && t.tape == s.tape && t.modes == s.modes
    && t.deck.jobs == s.deck.jobs && t.deck.nextJob == s.deck.nextJob && t.closed == s.closed
    && t.generation == s.generation
  }

  /** The song and what holds playback back are as before. */
  predicate Unheld(s: Player, t: Player) {
    t.voice == s.voice && t.providerBlocked == s.providerBlocked && t.halted == s.halted
      && t.networkAttempts == s.networkAttempts
  }

  /** A transport failure, reported by the attempt or by a health check, suspends the voice and keeps the song. */
  lemma VoiceFailureKeeps(s: Player, ending: Ending, t: Player)
    requires Live(s) && t == Step(s, P(TrackEnds(ending)))
    requires ending.VoiceError? || s.deck.attempt.value.interrupted
    ensures Over(s, t) && SongReturns(s, t) && t.deck.nextOcc == s.deck.nextOcc
    ensures t.voice.blocked && t.voice.attached == s.voice.attached && Unheld(s, t.(voice := s.voice))
  {
    assert [] + s.deck.queue == s.deck.queue;
  }

  /** A provider failure blocks the provider and keeps the song. */
  lemma ProviderFailureKeeps(s: Player, t: Player)
    requires Live(s) && !s.deck.attempt.value.interrupted && t == Step(s, P(TrackEnds(ProviderError)))
    ensures Over(s, t) && SongReturns(s, t) && t.deck.nextOcc == s.deck.nextOcc
    ensures t.providerBlocked && Unheld(s, t.(providerBlocked := s.providerBlocked))
  {
    assert [] + s.deck.queue == s.deck.queue;
  }

  /** Which stream errors are worth another try, for a song that has started or not, resumed or fresh. */
  predicate TriedAgain(cause: Cause, timeout: bool, started: bool, resumed: bool) {
    match cause
    case SourceNetwork => true
    case AudioStall => true
    case FfmpegExit => started || (timeout && !resumed)
    case YtDlpExit => started || timeout
    case Http403 => started || timeout
    case Other => timeout
  }

  /** A network failure is tried again with the song at the head of the queue; the third in a row halts the queue. */
  lemma NetworkFailureKeeps(s: Player, cause: Cause, timeout: bool, t: Player)
    requires Live(s) && !s.deck.attempt.value.interrupted && t == Step(s, P(TrackEnds(StreamError(cause, timeout))))
    requires TriedAgain(cause, timeout, Started(s.tape), s.deck.attempt.value.offset > 0)
    ensures Over(s, t) && SongReturns(s, t) && t.deck.nextOcc == s.deck.nextOcc
    ensures t.networkAttempts == s.networkAttempts + 1 && t.halted == (s.halted || t.networkAttempts >= 3)
    ensures t.voice == s.voice && t.providerBlocked == s.providerBlocked
  {
    assert [] + s.deck.queue == s.deck.queue;
  }

  /** Any other failure of a resumed song halts the queue with the song at its head, wherever it has got to. */
  lemma ResumeFailureHalts(s: Player, cause: Cause, timeout: bool, t: Player)
    requires Live(s) && !s.deck.attempt.value.interrupted && t == Step(s, P(TrackEnds(StreamError(cause, timeout))))
    requires !TriedAgain(cause, timeout, Started(s.tape), s.deck.attempt.value.offset > 0)
    requires s.deck.attempt.value.offset > 0
    ensures Over(s, t) && t.deck.queue == [Ready(Saved(s), s.deck.currentOcc)] + s.deck.queue
    ensures t.halted && Unheld(s, t.(halted := s.halted)) && t.deck.nextOcc == s.deck.nextOcc
  {
  }

  /** Any other failure of a fresh song gives it up, and playback goes on with the next one. */
  lemma FreshFailureAdvances(s: Player, cause: Cause, timeout: bool, t: Player)
    requires Live(s) && !s.deck.attempt.value.interrupted && t == Step(s, P(TrackEnds(StreamError(cause, timeout))))
    requires !TriedAgain(cause, timeout, Started(s.tape), s.deck.attempt.value.offset > 0)
    requires s.deck.attempt.value.offset == 0
    ensures Over(s, t) && t.deck.queue == s.deck.queue && Unheld(s, t) && t.deck.nextOcc == s.deck.nextOcc
  {
  }

  /** A clean end closes both incidents; a song that started comes again where the loop says so and there is room. */
  lemma CleanEnd(s: Player, t: Player)
    requires Live(s) && !s.deck.attempt.value.interrupted && t == Step(s, P(TrackEnds(Eof)))
    ensures Over(s, t) && t.networkAttempts == 0 && !t.voice.incident && t.halted == s.halted
    ensures s.voice.incident ==> t.voice.attempts == 0
    ensures var again := [Ready(Rewound(s.deck.current.value), s.deck.nextOcc)];
      var comes := Started(s.tape) && |s.deck.queue| < MAX_QUEUE;
      match s.modes.loop
      case Off => t.deck.queue == s.deck.queue
      case One => t.deck.queue == (if comes then again + s.deck.queue else s.deck.queue)
      case All => t.deck.queue == (if comes then s.deck.queue + again else s.deck.queue)
  {
  }

  /** The end of a cancelled attempt, or one at shutdown, changes nothing but that it is over. */
  lemma CancelledEnd(s: Player, ending: Ending, t: Player)
    requires s.deck.attempt.Some? && !Live(s) && t == Step(s, P(TrackEnds(ending)))
    ensures Over(s, t) && t.deck.queue == s.deck.queue && Unheld(s, t) && t.deck.nextOcc == s.deck.nextOcc
  {
  }

  /** Whether the song that is playing survives the end of its attempt, as the same playing. */
  predicate Survives(s: Player, ending: Ending)
    requires Live(s)
  {
    var a := s.deck.attempt.value;
    if ending.VoiceError? || a.interrupted then !PastHalf(Saved(s))
    else
      match ending
      case ProviderError => !PastHalf(Saved(s))
      case StreamError(cause, timeout) =>
        if TriedAgain(cause, timeout, Started(s.tape), a.offset > 0) then !PastHalf(Saved(s)) else a.offset > 0
      case _ => false
  }
}
