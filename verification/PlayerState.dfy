/**
 The guild player as a state machine: every critical section is one step.

 Times are nanoseconds. Occurrence numbers (`occ`, `currentOcc`, `nextOcc`) are bookkeeping of this
 model only: they name one queued playing of a track from the moment it is queued, so that
 statements can follow it. No step decides anything by them.
 */
module PlayerState {
  import opened Prelude

  const MAX_QUEUE := 1000
  const MAX_COLLECTION := 500
  const MAX_HISTORY := 100
  const VOICE_ATTEMPTS := 5
  const FRAME := 20_000_000
  const CHECKPOINT := 5_000_000_000

  /** `meta` stands for everything else the code knows about the recording. */
  datatype Track = Track(meta: nat, live: bool, duration: int, offset: nat)

  /** A queue slot; job 0 means no collection owns it. */
  datatype Entry = Entry(track: Track, pending: bool, job: nat, position: nat, occ: nat)

  type Queue = seq<Entry>

  datatype Job = Job(wanted: seq<bool>, recorded: seq<bool>, cancelled: bool, resolved: nat, failed: nat, skipped: nat)

  type Jobs = map<nat, Job>

  datatype Loop = Off | One | All

  datatype Modes = Modes(loop: Loop, autoplay: bool)

  /** What the playback loop remembers of the running attempt: the offset it began at, and whether its voice was cut. */
  datatype Attempt = Attempt(offset: nat, interrupted: bool)

  /** The voice recovery loop, with the epoch it began in, and whether a call is in progress. */
  datatype Recovery = Recovery(epoch: nat, calling: bool)

  /** What is lined up, what is playing, and the collections that still resolve slots. */
  datatype Deck = Deck(
    queue: Queue, jobs: Jobs, nextJob: nat, nextOcc: nat,
    current: Option<Track>, currentOcc: nat, attempt: Option<Attempt>)

  /** How far the audio has come, and what was heard. */
  datatype Tape = Tape(sequence: nat, startedSequence: nat, confirmed: nat, checkpoint: nat, history: seq<Track>)

  datatype Voice = Voice(
    attached: bool, blocked: bool, incident: bool, attempts: nat, epoch: nat, recovering: Option<Recovery>)

  datatype Player = Player(
    deck: Deck, tape: Tape, voice: Voice,
    modes: Modes, generation: nat, closed: bool, networkAttempts: nat, halted: bool, providerBlocked: bool)

  function Fresh(queue: Queue, history: seq<Track>, loop: Loop): Player {
    Player(Deck(queue, map[], 0, |queue|, None, 0, None), Tape(0, 0, 0, 0, history),
           Voice(false, false, false, 0, 0, None), Modes(loop, false), 0, false, 0, false, false)
  }

  predicate Started(t: Tape) {
    t.startedSequence == t.sequence
  }

  /** An interrupted song at or past its middle is not played again. */
  predicate PastHalf(t: Track) {
    !t.live && t.duration > 0 && t.offset >= (t.duration + 1) / 2
  }

  // ---------------------------------------------------------------------------
  // Slots and the jobs that own them
  // ---------------------------------------------------------------------------

  function Slots(tracks: seq<Track>, pending: bool, job: nat, occ: nat): (q: Queue)
    ensures |q| == |tracks|
    ensures forall i | 0 <= i < |q| :: q[i] == Entry(tracks[i], pending, job, i, occ + i)
  {
    seq(|tracks|, i requires 0 <= i < |tracks| => Entry(tracks[i], pending, job, i, occ + i))
  }

  function Flags(n: nat, value: bool): (flags: seq<bool>)
    ensures |flags| == n && forall i | 0 <= i < n :: flags[i] == value
  {
    seq(n, _ => value)
  }

  predicate Owned(jobs: Jobs, e: Entry) {
    e.job in jobs && e.position < |jobs[e.job].wanted|
  }

  /** The slot leaves the queue for playback. */
  function Release(jobs: Jobs, e: Entry): Jobs {
    if Owned(jobs, e) then jobs[e.job := jobs[e.job].(wanted := jobs[e.job].wanted[e.position := false])] else jobs
  }

  /** The slot is dropped; a job that wants nothing more is cancelled. */
  function Discard(jobs: Jobs, e: Entry): Jobs {
    if !Owned(jobs, e) then jobs
    else
      var wanted := jobs[e.job].wanted[e.position := false];
      jobs[e.job := jobs[e.job].(wanted := wanted, cancelled := jobs[e.job].cancelled || true !in wanted)]
  }

  function DiscardAll(jobs: Jobs, dropped: Queue): Jobs {
    if dropped == [] then jobs else Discard(DiscardAll(jobs, dropped[..|dropped| - 1]), dropped[|dropped| - 1])
  }

  function CancelAll(jobs: Jobs): Jobs {
    map id | id in jobs :: jobs[id].(cancelled := true)
  }

  // ---------------------------------------------------------------------------
  // Commands that add to the queue
  // ---------------------------------------------------------------------------

  predicate Welcome(s: Player, ticket: nat) {
    !s.closed && s.voice.attached && ticket == s.generation
  }

  predicate CanEnqueue(s: Player, tracks: seq<Track>, ticket: nat) {
    Welcome(s, ticket) && |tracks| <= MAX_QUEUE - |s.deck.queue|
  }

  function Lengthened(d: Deck, tracks: seq<Track>, pending: bool, job: nat): Deck {
    d.(queue := d.queue + Slots(tracks, pending, job, d.nextOcc), nextOcc := d.nextOcc + |tracks|)
  }

  function Enqueue(s: Player, tracks: seq<Track>): Player {
    s.(deck := Lengthened(s.deck, tracks, false, 0), halted := false)
  }

  predicate CanBegin(s: Player, tracks: seq<Track>, ticket: nat) {
    CanEnqueue(s, tracks, ticket) && 0 < |tracks| <= MAX_COLLECTION
  }

  function NewJob(n: nat): Job {
    Job(Flags(n, true), Flags(n, false), false, 0, 0, 0)
  }

  /** Reserves one pending slot for every track of the collection. */
  function Reserved(d: Deck, tracks: seq<Track>): Deck {
    var id := d.nextJob + 1;
    Lengthened(d, tracks, true, id).(jobs := d.jobs[id := NewJob(|tracks|)], nextJob := id)
  }

  function Begin(s: Player, tracks: seq<Track>): Player {
    s.(deck := Reserved(s.deck, tracks), halted := false)
  }

  // ---------------------------------------------------------------------------
  // Commands that edit the queue
  // ---------------------------------------------------------------------------

  predicate Upcoming(d: Deck, position: int) {
    1 <= position <= |d.queue|
  }

  function Without(q: Queue, i: nat): Queue
    requires i < |q|
  {
    q[..i] + q[i + 1..]
  }

  function Remove(d: Deck, position: int): Deck
    requires Upcoming(d, position)
  {
    d.(queue := Without(d.queue, position - 1), jobs := Discard(d.jobs, d.queue[position - 1]))
  }

  function Moved(q: Queue, i: nat, j: nat): Queue
    requires i < |q| && j < |q|
  {
    Without(q, i)[..j] + [q[i]] + Without(q, i)[j..]
  }

  function Move(d: Deck, from: int, to: int): Deck
    requires Upcoming(d, from) && Upcoming(d, to)
  {
    d.(queue := Moved(d.queue, from - 1, to - 1))
  }

  type Swaps = seq<(nat, nat)>

  function Swapped(q: Queue, swaps: Swaps): (r: Queue)
    requires forall w | w in swaps :: w.0 < |q| && w.1 < |q|
    ensures |r| == |q|
  {
    if swaps == [] then q
    else
      var r := Swapped(q, swaps[..|swaps| - 1]);
      var w := swaps[|swaps| - 1];
      assert w in swaps;
      r[w.0 := r[w.1]][w.1 := r[w.0]]
  }

  predicate CanShuffle(d: Deck, swaps: Swaps) {
    d.queue != [] && forall w | w in swaps :: w.0 < |d.queue| && w.1 < |d.queue|
  }

  function Shuffle(d: Deck, swaps: Swaps): Deck
    requires CanShuffle(d, swaps)
  {
    d.(queue := Swapped(d.queue, swaps))
  }

  /** The first n upcoming slots are dropped. */
  function Drop(d: Deck, n: nat): Deck
    requires n <= |d.queue|
  {
    d.(queue := d.queue[n..], jobs := DiscardAll(d.jobs, d.queue[..n]))
  }

  function Quiet(d: Deck): Deck {
    d.(current := None)
  }

  function Jump(d: Deck, position: int): Deck
    requires Upcoming(d, position)
  {
    Drop(Quiet(d), position - 1)
  }

  predicate CanSkip(count: int) {
    1 <= count <= MAX_QUEUE + 1
  }

  function SkipDeck(d: Deck, count: int): Deck
    requires CanSkip(count)
  {
    Drop(Quiet(d), Min(if d.current.Some? then count - 1 else count, |d.queue|))
  }

  function Skip(s: Player, count: int): Player
    requires CanSkip(count)
  {
    s.(deck := SkipDeck(s.deck, count), networkAttempts := 0, halted := s.halted && s.networkAttempts == 0)
  }

  function Clear(s: Player): Player {
    s.(deck := s.deck.(queue := [], jobs := CancelAll(s.deck.jobs)), modes := s.modes.(loop := Off),
       generation := s.generation + 1, halted := false, networkAttempts := 0)
  }

  function Stop(s: Player): Player {
    var t := Clear(s);
    t.(deck := Quiet(t.deck), voice := s.voice.(epoch := s.voice.epoch + 1), providerBlocked := false)
  }

  function Leave(s: Player): Player {
    var t := Stop(s);
    t.(voice := t.voice.(attached := false))
  }

  predicate CanReplay(d: Deck) {
    d.current.Some? && |d.queue| < MAX_QUEUE
  }

  /** A ready slot outside any collection. */
  function Ready(t: Track, occ: nat): Entry {
    Entry(t, false, 0, 0, occ)
  }

  function Rewound(t: Track): Track {
    t.(offset := 0)
  }

  function Replay(d: Deck): Deck
    requires CanReplay(d)
  {
    d.(queue := [Ready(Rewound(d.current.value), d.nextOcc)] + d.queue, nextOcc := d.nextOcc + 1, current := None)
  }

  /** How many songs lie before the current one, by the code's count. */
  function Behind(s: Player): int {
    |s.tape.history| - if s.deck.current.Some? && Started(s.tape) then 1 else 0
  }

  datatype Reply = Done | Refused | Panics

  function PreviousReply(s: Player): Reply {
    if Behind(s) == 0 || s.closed || !s.voice.attached then Refused
    else if |s.deck.queue| + (if s.deck.current.Some? then 2 else 1) > MAX_QUEUE then Refused
    else if Behind(s) < 0 then Panics
    else Done
  }

  /** The interrupted track comes back at the offset its attempt began with: a new playing. */
  function BackTo(d: Deck, earlier: Track): Deck {
    var next := if d.current.Some? then [Ready(d.current.value, d.nextOcc + 1)] else [];
    d.(queue := [Ready(Rewound(earlier), d.nextOcc)] + next + d.queue, nextOcc := d.nextOcc + 2, current := None)
  }

  function Previous(s: Player): Player
    requires PreviousReply(s) == Done
  {
    var n := Behind(s);
    s.(deck := BackTo(s.deck, s.tape.history[n - 1]), tape := s.tape.(history := s.tape.history[..n - 1]),
       halted := false)
  }

  // ---------------------------------------------------------------------------
  // Voice
  // ---------------------------------------------------------------------------

  function Attach(s: Player): Player {
    if s.closed || s.voice.attached then s
    else s.(voice := s.voice.(attached := true, blocked := false, incident := false, attempts := 0),
            generation := s.generation + 1)
  }

  function Suspend(v: Voice): Voice {
    if v.blocked then v else v.(blocked := true, incident := true, attempts := if v.incident then v.attempts else 0)
  }

  function Interrupted(d: Deck): Deck {
    if d.current.Some? && d.attempt.Some? then d.(attempt := Some(d.attempt.value.(interrupted := true))) else d
  }

  /** A health check reports the transport gone. */
  function SuspendVoice(s: Player): Player {
    if !s.voice.attached || s.closed then s else s.(voice := Suspend(s.voice), deck := Interrupted(s.deck))
  }

  predicate CanRecover(s: Player) {
    && s.deck.attempt.None? && s.voice.recovering.None?
    && s.voice.blocked && s.voice.attempts < VOICE_ATTEMPTS && s.deck.queue != [] && s.voice.attached && !s.closed
  }

  function StartRecovery(v: Voice): Voice {
    v.(recovering := Some(Recovery(v.epoch, false)))
  }

  predicate Stale(s: Player)
    requires s.voice.recovering.Some?
  {
    s.voice.recovering.value.epoch != s.voice.epoch || s.closed
  }

  /** This turn of the recovery loop spends an attempt and calls the transport. */
  predicate Calls(s: Player) {
    && s.voice.recovering.Some? && !s.voice.recovering.value.calling
    && !Stale(s) && s.voice.attempts < VOICE_ATTEMPTS
  }

  function RecoverCall(s: Player): Voice {
    var v := s.voice;
    if v.recovering.None? || v.recovering.value.calling then v
    else if !Calls(s) then v.(recovering := None)
    else v.(attempts := v.attempts + 1, recovering := Some(v.recovering.value.(calling := true)))
  }

  function RecoverResult(s: Player, ok: bool): Voice {
    var v := s.voice;
    if v.recovering.None? || !v.recovering.value.calling then v
    else if Stale(s) then v.(recovering := None)
    else if ok then v.(recovering := None, blocked := false)
    else if v.attempts >= VOICE_ATTEMPTS then v.(recovering := None)
    else v.(recovering := Some(v.recovering.value.(calling := false)))
  }

  function CompleteRecovery(s: Player): Player {
    s.(networkAttempts := 0,
       voice := s.voice.(incident := false, attempts := if s.voice.incident then 0 else s.voice.attempts))
  }

  predicate Renews(s: Player, paused: bool) {
    s.voice.blocked && s.deck.queue != [] && !paused && s.voice.attempts >= VOICE_ATTEMPTS
  }

  /** Resuming renews an exhausted voice budget, or releases a halted queue. */
  function SetPaused(s: Player, paused: bool): Player {
    if s.voice.blocked && s.deck.queue != [] then
      if Renews(s, paused) then s.(voice := s.voice.(attempts := 0)) else s
    else if !paused && s.providerBlocked then s
    else if !paused && s.halted then s.(halted := false, networkAttempts := 0)
    else s
  }

  // ---------------------------------------------------------------------------
  // The playback loop
  // ---------------------------------------------------------------------------

  predicate CanSelect(s: Player, permit: bool) {
    && s.deck.attempt.None? && s.voice.recovering.None?
    && !s.closed && s.voice.attached && !s.voice.blocked && (s.providerBlocked ==> permit) && !s.halted
    && s.deck.queue != [] && !s.deck.queue[0].pending
  }

  function Taken(d: Deck): Deck
    requires d.queue != []
  {
    var e := d.queue[0];
    d.(queue := d.queue[1..], jobs := Release(d.jobs, e),
       current := Some(e.track), currentOcc := e.occ, attempt := Some(Attempt(e.track.offset, false)))
  }

  function Select(s: Player): Player
    requires s.deck.queue != []
  {
    var offset := s.deck.queue[0].track.offset;
    s.(deck := Taken(s.deck),
       tape := s.tape.(sequence := s.tape.sequence + 1, confirmed := offset, checkpoint := offset))
  }

  /** The attempt with this sequence is the live one: not cancelled, not interrupted. */
  predicate Listening(s: Player, sequence: nat) {
    && s.deck.attempt.Some? && !s.deck.attempt.value.interrupted
    && !s.closed && s.deck.current.Some? && s.tape.sequence == sequence
  }

  predicate Unstarted(s: Player, sequence: nat) {
    Listening(s, sequence) && s.tape.startedSequence != sequence
  }

  /** Final metadata may replace the track before its first frame, but keeps the offset. */
  function Described(d: Deck, final: Track): Deck
    requires d.current.Some?
  {
    d.(current := Some(final.(offset := d.current.value.offset)))
  }

  /** This frame completes five seconds of confirmed audio in this attempt. */
  predicate Steady(s: Player) {
    s.deck.current.Some? && s.tape.confirmed + FRAME - s.deck.current.value.offset >= CHECKPOINT
  }

  function Advanced(t: Tape): Tape {
    var c := t.confirmed + FRAME;
    t.(confirmed := c, checkpoint := if c - t.checkpoint >= CHECKPOINT then c else t.checkpoint)
  }

  /** One more frame was sent. */
  function ConfirmFrame(s: Player): Player {
    var t := if Steady(s) then CompleteRecovery(s) else s;
    t.(tape := Advanced(s.tape))
  }

  function Trim(history: seq<Track>): seq<Track> {
    if |history| > MAX_HISTORY then history[|history| - MAX_HISTORY..] else history
  }

  /** The history once this track has started: a resumed track is already in it. */
  function Heard(history: seq<Track>, t: Track): seq<Track> {
    Trim(if t.offset > 0 then history else history + [t])
  }

  function AnnounceStart(t: Tape, current: Track): Tape {
    t.(startedSequence := t.sequence, history := Heard(t.history, current))
  }

  datatype Cause = FfmpegExit | YtDlpExit | Http403 | SourceNetwork | AudioStall | Other

  datatype Ending = Eof | VoiceError | ProviderError | StreamError(cause: Cause, timeout: bool)

  /** A network failure worth another try; a decoder that exits before a resumed track starts is not. */
  predicate Transient(started: bool, offset: nat, ending: Ending) {
    && ending.StreamError?
    && !(offset > 0 && !started && ending.cause == FfmpegExit)
    && (|| (started && (ending.cause == FfmpegExit || ending.cause == YtDlpExit || ending.cause == Http403))
        || ending.cause == SourceNetwork || ending.cause == AudioStall || ending.timeout)
  }

  function Ended(d: Deck): Deck {
    d.(current := None, attempt := None)
  }

  /** The current track with its confirmed progress. */
  function Saved(s: Player): Track
    requires s.deck.current.Some?
  {
    s.deck.current.value.(offset := s.tape.confirmed)
  }

  /** The track returns to the head of the queue, still the same playing. */
  function Returned(d: Deck, t: Track): Deck {
    Ended(d).(queue := [Ready(t, d.currentOcc)] + d.queue)
  }

  function Kept(d: Deck, t: Track): Deck {
    if PastHalf(t) then Ended(d) else Returned(d, t)
  }

  /** The loop repeats a song that was heard to its end, where the queue has room. */
  function Repeated(d: Deck, t: Track, loop: Loop): Deck {
    var again := [Ready(Rewound(t), d.nextOcc)];
    if |d.queue| >= MAX_QUEUE || loop == Off then Ended(d)
    else Ended(d).(queue := if loop == One then again + d.queue else d.queue + again, nextOcc := d.nextOcc + 1)
  }

  datatype Fate = Suspended | Dropped | Blocked | Retried | Stuck | Completed | Skipped

  /** How the attempt's end is treated; every branch excludes the others. */
  function FateOf(s: Player, ending: Ending): Fate
    requires s.deck.attempt.Some?
  {
    var a := s.deck.attempt.value;
    if s.deck.current.None? || s.closed then Dropped
    else if ending.VoiceError? || a.interrupted then Suspended
    else if ending.ProviderError? then Blocked
    else if ending.Eof? then Completed
    else if Transient(Started(s.tape), a.offset, ending) then Retried
    else if a.offset > 0 then Stuck
    else Skipped
  }

  function Finish(s: Player, ending: Ending): Player
    requires s.deck.attempt.Some?
  {
    var d := s.deck;
    match FateOf(s, ending)
    case Suspended => s.(deck := Kept(d, Saved(s)), voice := Suspend(s.voice))
    case Blocked => s.(deck := Kept(d, Saved(s)), providerBlocked := true)
    case Retried =>
      s.(deck := Kept(d, Saved(s)), networkAttempts := s.networkAttempts + 1,
         halted := s.halted || s.networkAttempts >= 2)
    case Stuck => s.(deck := Returned(d, Saved(s)), halted := true)
    case Completed =>
      CompleteRecovery(s).(deck := if Started(s.tape) then Repeated(d, d.current.value, s.modes.loop) else Ended(d))
    case _ => s.(deck := Ended(d))
  }

  // ---------------------------------------------------------------------------
  // Collection resolution
  // ---------------------------------------------------------------------------

  /** A finished search for one position of a collection. */
  datatype Result = Result(index: nat, track: Track, failed: bool, skipped: bool)

  predicate AtSlot(e: Entry, job: nat, index: nat) {
    e.job == job && e.position == index
  }

  /** The first slot of a job's position, or the end. */
  function Find(q: Queue, job: nat, index: nat): (i: nat)
    ensures i <= |q|
    ensures i < |q| ==> AtSlot(q[i], job, index)
    ensures forall k | 0 <= k < i :: !AtSlot(q[k], job, index)
  {
    if q == [] || AtSlot(q[0], job, index) then 0 else 1 + Find(q[1..], job, index)
  }

  predicate Running(d: Deck, job: nat) {
    job in d.jobs && !d.jobs[job].cancelled
  }

  function Filled(e: Entry, t: Track): Entry {
    e.(track := t, pending := false)
  }

  /** A result fills or removes the slot it was searched for; it never adds one. */
  function Commit(d: Deck, job: nat, r: Result): Deck {
    var i := Find(d.queue, job, r.index);
    if !Running(d, job) || i == |d.queue| then d
    else if r.failed || r.skipped then d.(queue := Without(d.queue, i), jobs := Release(d.jobs, d.queue[i]))
    else d.(queue := d.queue[i := Filled(d.queue[i], r.track)])
  }

  function Count(j: Job, r: Result): Job
    requires r.index < |j.recorded|
  {
    var marked := j.(recorded := j.recorded[r.index := true]);
    if r.skipped || j.cancelled || r.index >= |j.wanted| || !j.wanted[r.index] then marked.(skipped := j.skipped + 1)
    else if r.failed then marked.(failed := j.failed + 1)
    else marked.(resolved := j.resolved + 1)
  }

  function Record(d: Deck, job: nat, r: Result): Deck {
    if job !in d.jobs || r.index >= |d.jobs[job].recorded| || d.jobs[job].recorded[r.index] then d
    else d.(jobs := d.jobs[job := Count(d.jobs[job], r)])
  }

  /** Teardown drops what the job left unresolved. */
  function Resolved(q: Queue, job: nat): Queue {
    if q == [] then []
    else
      var e := q[|q| - 1];
      Resolved(q[..|q| - 1], job) + if e.job == job && e.pending then [] else [e]
  }

  function EndJob(d: Deck, job: nat): Deck {
    if job !in d.jobs then d else d.(queue := Resolved(d.queue, job), jobs := d.jobs - {job})
  }

  function CancelJob(d: Deck, job: nat): Deck {
    if job !in d.jobs then d else d.(jobs := d.jobs[job := d.jobs[job].(cancelled := true)])
  }

  // ---------------------------------------------------------------------------
  // Steps and runs
  // ---------------------------------------------------------------------------

  datatype Edit =
    | EnqueueMany(tracks: seq<Track>, ticket: nat)
    | BeginCollection(tracks: seq<Track>, ticket: nat)
    | RemoveAt(position: int)
    | MoveTo(from: int, to: int)
    | ShuffleBy(swaps: Swaps)
    | JumpTo(position: int)
    | SkipN(count: int)
    | ReplayCurrent
    | PlayPrevious

  datatype Control =
    | ClearQueue | StopPlayback | LeaveVoice | SetLoop(mode: Loop) | SetAutoplay(enabled: bool) | Pause(paused: bool)
    | Close

  datatype Transport = AttachVoice | LoseVoice | BeginRecovery | CallRecover | EndRecover(ok: bool)

  datatype Playing =
    | SelectHead(permit: bool)
    | SetTrack(sequence: nat, final: Track)
    | FrameSent(sequence: nat)
    | FirstFrame(sequence: nat)
    | TrackEnds(ending: Ending)

  datatype Resolving =
    | CommitResult(job: nat, result: Result)
    | RecordResult(job: nat, result: Result)
    | JobEnds(job: nat)
    | JobCancelled(job: nat)
    | ProviderChanges(blocked: bool)

  /** A refused command and an event that is not due change nothing. */
  datatype Event =
    | E(edit: Edit) | C(control: Control) | T(transport: Transport) | P(playing: Playing) | R(resolving: Resolving)

  function EditStep(s: Player, e: Edit): Player {
    match e
    case EnqueueMany(tracks, ticket) => if CanEnqueue(s, tracks, ticket) then Enqueue(s, tracks) else s
    case BeginCollection(tracks, ticket) => if CanBegin(s, tracks, ticket) then Begin(s, tracks) else s
    case RemoveAt(position) => if Upcoming(s.deck, position) then s.(deck := Remove(s.deck, position)) else s
    case MoveTo(from, to) =>
      if Upcoming(s.deck, from) && Upcoming(s.deck, to) then s.(deck := Move(s.deck, from, to)) else s
    case ShuffleBy(swaps) => if CanShuffle(s.deck, swaps) then s.(deck := Shuffle(s.deck, swaps)) else s
    case JumpTo(position) => if Upcoming(s.deck, position) then s.(deck := Jump(s.deck, position)) else s
    case SkipN(count) => if CanSkip(count) then Skip(s, count) else s
    case ReplayCurrent => if CanReplay(s.deck) then s.(deck := Replay(s.deck)) else s
    case PlayPrevious => if PreviousReply(s) == Done then Previous(s) else s
  }

  function ControlStep(s: Player, c: Control): Player {
    match c
    case ClearQueue => Clear(s)
    case StopPlayback => Stop(s)
    case LeaveVoice => Leave(s)
    case SetLoop(mode) => s.(modes := s.modes.(loop := mode))
    case SetAutoplay(enabled) => s.(modes := s.modes.(autoplay := enabled))
    case Pause(paused) => SetPaused(s, paused)
    case Close => s.(closed := true)
  }

  function TransportStep(s: Player, t: Transport): Player {
    match t
    case AttachVoice => Attach(s)
    case LoseVoice => SuspendVoice(s)
    case BeginRecovery => if CanRecover(s) then s.(voice := StartRecovery(s.voice)) else s
    case CallRecover => s.(voice := RecoverCall(s))
    case EndRecover(ok) => s.(voice := RecoverResult(s, ok))
  }

  function PlayStep(s: Player, p: Playing): Player {
    match p
    case SelectHead(permit) => if CanSelect(s, permit) then Select(s) else s
    case SetTrack(sequence, final) => if Unstarted(s, sequence) then s.(deck := Described(s.deck, final)) else s
    case FrameSent(sequence) => if Listening(s, sequence) then ConfirmFrame(s) else s
    case FirstFrame(sequence) =>
      if Unstarted(s, sequence) then s.(tape := AnnounceStart(s.tape, s.deck.current.value)) else s
    case TrackEnds(ending) => if s.deck.attempt.Some? then Finish(s, ending) else s
  }

  function ResolveStep(s: Player, r: Resolving): Player {
    match r
    case CommitResult(job, result) => if s.providerBlocked then s else s.(deck := Commit(s.deck, job, result))
    case RecordResult(job, result) => if s.providerBlocked then s else s.(deck := Record(s.deck, job, result))
    case JobEnds(job) => s.(deck := EndJob(s.deck, job))
    case JobCancelled(job) => s.(deck := CancelJob(s.deck, job))
    case ProviderChanges(blocked) => s.(providerBlocked := blocked)
  }

  function Step(s: Player, e: Event): Player {
    match e
    case E(edit) => EditStep(s, edit)
    case C(control) => ControlStep(s, control)
    case T(transport) => TransportStep(s, transport)
    case P(playing) => PlayStep(s, playing)
    case R(resolving) => ResolveStep(s, resolving)
  }

  /** A run lists the states that the events lead through. */
  ghost predicate Run(states: seq<Player>, events: seq<Event>) {
    && |states| == |events| + 1
    && forall i | 0 <= i < |events| :: states[i + 1] == Step(states[i], events[i])
  }
}
