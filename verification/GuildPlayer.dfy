/**
 The guild player object: its fields change in place, one critical section at a time.
 Every method takes the state exactly where the state machine of PlayerState says.
 */
module GuildPlayers {
  import opened Prelude
  import opened PlayerState
  import opened Progress
  import opened Restart
  import opened SlotIdentity

  /** Restoring appends to a player that has neither voice nor songs. */
  function Load(s: Player, c: Snapshot): Player {
    s.(deck := Lengthened(s.deck, Lineup(c), false, 0), modes := c.modes,
       tape := s.tape.(history := s.tape.history + Remembered(c)))
  }

  predicate Busy(s: Player) {
    s.voice.attached || s.deck.current.Some? || s.deck.queue != []
  }

  predicate Fits(c: Snapshot) {
    |Lineup(c)| <= MAX_QUEUE + 1
  }

  /** The player after being configured from a store; the capacity check comes after the modes are taken. */
  function Configured(s: Player, loaded: Option<Snapshot>): Player {
    if Busy(s) || loaded == None then s
    else
      var c := loaded.value;
      if !Fits(c) then s.(modes := c.modes) else Load(s, c)
  }

  /** A new player configured with a snapshot is the restored player. */
  lemma LoadRestores(c: Snapshot)
    requires Restored(c).Some?
    ensures Configured(Fresh([], [], Off), Some(c)) == Restored(c).value
  {
    assert [] + Slots(Lineup(c), false, 0, 0) == Slots(Lineup(c), false, 0, 0);
    assert [] + Remembered(c) == Remembered(c);
  }

  /** A refusal changes nothing if and only if it was for voice, songs or a failed load, or both modes are the same. */
  lemma RefusalUnchangedIff(s: Player, loaded: Option<Snapshot>)
    requires Busy(s) || loaded == None || !Fits(loaded.value)
    ensures Configured(s, loaded) == s <==>
      Busy(s) || loaded == None || (loaded.value.modes == s.modes)
  {
  }

  /** A snapshot of 1002 songs is refused, and the new player loops one song and has autoplay on from then on. */
  lemma RefusalTakesLoop(t: Track)
    ensures var c := Snapshot(Modes(One, true), None, false, seq(MAX_QUEUE + 2, _ => t), []);
      && Restored(c) == None
      && Configured(Fresh([], [], Off), Some(c)) == Fresh([], [], Off).(modes := Modes(One, true))
  {
  }

  lemma LoadGood(s: Player, c: Snapshot)
    requires Good(s) && !Busy(s) && Fits(c) && |s.tape.history| + |c.history| <= MAX_HISTORY
    ensures Good(Load(s, c))
  {
    KeepsEnqueue(s.deck, Lineup(c));
  }

  class GuildPlayer {
    var queue: Queue
    var jobs: Jobs
    var nextJob: nat
    var nextOcc: nat
    var current: Option<Track>
    var currentOcc: nat
    var attempt: Option<Attempt>
    var tape: Tape
    var voice: Voice
    var modes: Modes
    var generation: nat
    var closed: bool
    var networkAttempts: nat
    var halted: bool
    var providerBlocked: bool

    function TheDeck(): Deck
      reads this
    {
      Deck(queue, jobs, nextJob, nextOcc, current, currentOcc, attempt)
    }

    function Model(): Player
      reads this
    {
      Player(TheDeck(), tape, voice, modes, generation, closed, networkAttempts, halted, providerBlocked)
    }

    /** What every run keeps holds of the object between any two calls. */
    ghost predicate Valid()
      reads this
    {
      Good(Model())
    }

    constructor ()
      ensures Valid() && Model() == Fresh([], [], Off)
    {
      queue, jobs, nextJob, nextOcc, current, currentOcc, attempt := [], map[], 0, 0, None, 0, None;
      tape, voice := Tape(0, 0, 0, 0, []), Voice(false, false, false, 0, 0, None);
      modes, generation, closed := Modes(Off, false), 0, false;
      networkAttempts, halted, providerBlocked := 0, false, false;
      new;
      FreshSound([], [], Off);
      assert Slots([], false, 0, 0) == [];
    }

    // -------------------------------------------------------------------------
    // Snapshots
    // -------------------------------------------------------------------------

    /** `loaded` is the store's answer, none where loading failed. */
    method ConfigureStore(loaded: Option<Snapshot>) returns (ok: bool)
      requires Valid()
      modifies `queue, `nextOcc, `tape, `modes
      ensures ok <==> !Busy(old(Model())) && loaded.Some? && Fits(loaded.value)
      ensures Model() == Configured(old(Model()), loaded)
      ensures !ok || |old(tape).history| + |loaded.value.history| <= MAX_HISTORY ==> Valid()
    {
      ghost var s := Model();
      if voice.attached || current.Some? || |queue| > 0 || loaded == None {
        return false;
      }
      ok := Restore(loaded.value);
      if ok && |s.tape.history| + |loaded.value.history| <= MAX_HISTORY {
        LoadGood(s, loaded.value);
      }
    }

    /** The modes are taken before the capacity is checked. */
    method Restore(state: Snapshot) returns (ok: bool)
      modifies `queue, `nextOcc, `tape, `modes
      ensures ok == Fits(state)
      ensures Model() ==
        if ok then Load(old(Model()), state) else old(Model()).(modes := state.modes)
    {
      modes := state.modes;
      var tracks := Restorable(state);
      if |tracks| > MAX_QUEUE + 1 {
        return false;
      }
      Append(tracks, false, 0);
      var heard := HeardBefore(state);
      AppendHistory(heard);
      return true;
    }

    /** The interrupted song comes first unless it was past its middle. */
    static method Restorable(state: Snapshot) returns (tracks: seq<Track>)
      ensures tracks == Lineup(state)
    {
      tracks := state.queue;
      if state.current.Some? && !PastHalf(state.current.value) {
        tracks := [state.current.value] + tracks;
      }
    }

    /** A song that will be announced again is taken off the history. */
    static method HeardBefore(state: Snapshot) returns (heard: seq<Track>)
      ensures heard == Remembered(state)
    {
      heard := state.history;
      if state.started && state.current.Some? && state.current.value.offset == 0
         && !PastHalf(state.current.value) && |heard| > 0 {
        heard := heard[..|heard| - 1];
      }
    }

    method AppendHistory(heard: seq<Track>)
      modifies `tape
      ensures tape == old(tape).(history := old(tape).history + heard)
    {
      for i := 0 to |heard|
        invariant tape == old(tape).(history := old(tape).history + heard[..i])
      {
        tape := tape.(history := tape.history + [heard[i]]);
      }
      assert heard[..|heard|] == heard;
    }

    method QueuedTracks() returns (tracks: seq<Track>)
      ensures tracks == Tracks(queue)
    {
      tracks := [];
      for i := 0 to |queue|
        invariant tracks == Tracks(queue)[..i]
      {
        tracks := tracks + [queue[i].track];
      }
    }

    /** The snapshot of a valid player can always be restored. */
    method DurableState() returns (state: Snapshot)
      requires Valid()
      ensures state == Durable(Model()) && Restored(state).Some?
    {
      var saved := None;
      if current.Some? {
        saved := Some(current.value.(offset := tape.confirmed));
      }
      var tracks := QueuedTracks();
      var started := current.Some? && tape.startedSequence == tape.sequence;
      state := Snapshot(modes, saved, started, tracks, tape.history);
      assert state == Durable(Model());
      SnapshotRestores(Model());
    }

    // -------------------------------------------------------------------------
    // Adding to the queue
    // -------------------------------------------------------------------------

    method Append(tracks: seq<Track>, pending: bool, job: nat)
      modifies `queue, `nextOcc
      ensures TheDeck() == Lengthened(old(TheDeck()), tracks, pending, job)
    {
      ghost var all := Slots(tracks, pending, job, nextOcc);
      for i := 0 to |tracks|
        invariant queue == old(queue) + all[..i] && nextOcc == old(nextOcc) + i
      {
        queue := queue + [Entry(tracks[i], pending, job, i, nextOcc)];
        nextOcc := nextOcc + 1;
        assert all[..i + 1] == all[..i] + [all[i]];
      }
      assert all[..|tracks|] == all;
    }

    method EnqueueMany(tracks: seq<Track>, ticket: nat) returns (ok: bool)
      requires Valid()
      modifies `queue, `nextOcc, `halted
      ensures Valid() && Model() == Step(old(Model()), E(Edit.EnqueueMany(tracks, ticket)))
      ensures ok == CanEnqueue(old(Model()), tracks, ticket)
    {
      ghost var s := Model();
      if closed || !voice.attached || ticket != generation || |tracks| > MAX_QUEUE - |queue| {
        return false;
      }
      halted := false;
      Append(tracks, false, 0);
      StepGood(s, E(Edit.EnqueueMany(tracks, ticket)), Model());
      return true;
    }

    method BeginCollection(tracks: seq<Track>, ticket: nat) returns (ok: bool)
      requires Valid()
      modifies `queue, `nextOcc, `halted, `jobs, `nextJob
      ensures Valid() && Model() == Step(old(Model()), E(Edit.BeginCollection(tracks, ticket)))
      ensures ok == CanBegin(old(Model()), tracks, ticket)
    {
      ghost var s := Model();
      if closed || !voice.attached || ticket != generation {
        return false;
      }
      if |tracks| == 0 || |tracks| > MAX_COLLECTION || |tracks| > MAX_QUEUE - |queue| {
        return false;
      }
      halted := false;
      nextJob := nextJob + 1;
      jobs := jobs[nextJob := NewJob(|tracks|)];
      Append(tracks, true, nextJob);
      assert TheDeck() == Reserved(old(TheDeck()), tracks);
      StepGood(s, E(Edit.BeginCollection(tracks, ticket)), Model());
      return true;
    }

    // -------------------------------------------------------------------------
    // Slots and jobs
    // -------------------------------------------------------------------------

    method ReleaseEntry(entry: Entry)
      modifies `jobs
      ensures jobs == Release(old(jobs), entry)
    {
      if entry.job in jobs && entry.position < |jobs[entry.job].wanted| {
        var job := jobs[entry.job];
        jobs := jobs[entry.job := job.(wanted := job.wanted[entry.position := false])];
      }
    }

    method DiscardEntry(entry: Entry)
      modifies `jobs
      ensures jobs == Discard(old(jobs), entry)
    {
      if entry.job !in jobs || entry.position >= |jobs[entry.job].wanted| {
        return;
      }
      var job := jobs[entry.job];
      var wanted := job.wanted[entry.position := false];
      jobs := jobs[entry.job := job.(wanted := wanted)];
      for i := 0 to |wanted|
        invariant true !in wanted[..i]
      {
        if wanted[i] {
          return;
        }
      }
      assert wanted[..|wanted|] == wanted;
      jobs := jobs[entry.job := job.(wanted := wanted, cancelled := true)];
    }

    method CancelJobs()
      modifies `jobs
      ensures jobs == CancelAll(old(jobs))
    {
      var left := jobs.Keys;
      while left != {}
        modifies `jobs
        invariant left <= jobs.Keys == old(jobs).Keys
        invariant forall id | id in jobs ::
          jobs[id] == if id in left then old(jobs)[id] else old(jobs)[id].(cancelled := true)
        decreases |left|
      {
        var id :| id in left;
        jobs := jobs[id := jobs[id].(cancelled := true)];
        left := left - {id};
      }
    }

    // -------------------------------------------------------------------------
    // Editing the queue
    // -------------------------------------------------------------------------

    method RemoveAt(position: int) returns (ok: bool)
      requires Valid()
      modifies `queue, `jobs
      ensures Valid() && Model() == Step(old(Model()), E(Edit.RemoveAt(position)))
      ensures ok == Upcoming(old(TheDeck()), position)
    {
      ghost var s := Model();
      if position < 1 || position > |queue| {
        return false;
      }
      var i := position - 1;
      DiscardEntry(queue[i]);
      queue := queue[..i] + queue[i + 1..];
      StepGood(s, E(Edit.RemoveAt(position)), Model());
      return true;
    }

    method MoveTo(from: int, to: int) returns (ok: bool)
      requires Valid()
      modifies `queue
      ensures Valid() && Model() == Step(old(Model()), E(Edit.MoveTo(from, to)))
      ensures ok == (Upcoming(old(TheDeck()), from) && Upcoming(old(TheDeck()), to))
    {
      ghost var s := Model();
      if from < 1 || to < 1 || from > |queue| || to > |queue| {
        return false;
      }
      Shift(from - 1, to - 1);
      StepGood(s, E(Edit.MoveTo(from, to)), Model());
      return true;
    }

    /** Shifts the slots between i and j by one and puts slot i at j. */
    method Shift(i: nat, j: nat)
      requires i < |queue| && j < |queue|
      modifies `queue
      ensures queue == Moved(old(queue), i, j)
    {
      var entry := queue[i];
      ShiftedSlices(queue, i, j);
      if i < j {
        queue := queue[..i] + queue[i + 1..j + 1] + [entry] + queue[j + 1..];
      } else {
        queue := queue[..j] + [entry] + queue[j..i] + queue[i + 1..];
      }
    }

    /** The swaps are those that the random shuffle asks for. */
    method ShuffleBy(swaps: Swaps) returns (ok: bool)
      requires Valid() && forall w | w in swaps :: w.0 < |queue| && w.1 < |queue|
      modifies `queue
      ensures Valid() && Model() == Step(old(Model()), E(Edit.ShuffleBy(swaps)))
      ensures ok == CanShuffle(old(TheDeck()), swaps)
    {
      ghost var s := Model();
      if |queue| == 0 {
        return false;
      }
      for k := 0 to |swaps|
        modifies `queue
        invariant queue == Swapped(old(queue), swaps[..k])
      {
        var i, j := swaps[k].0, swaps[k].1;
        assert swaps[k] in swaps;
        assert swaps[..k + 1][..k] == swaps[..k];
        queue := queue[i := queue[j]][j := queue[i]];
      }
      assert swaps[..|swaps|] == swaps;
      StepGood(s, E(Edit.ShuffleBy(swaps)), Model());
      return true;
    }

    /** Discards the first n slots one by one. */
    method DropFirst(n: nat)
      requires n <= |queue|
      modifies `queue, `jobs
      ensures TheDeck() == Drop(old(TheDeck()), n)
    {
      for k := 0 to n
        modifies `jobs
        invariant jobs == DiscardAll(old(jobs), queue[..k])
      {
        DiscardEntry(queue[k]);
        assert queue[..k + 1][..k] == queue[..k];
      }
      queue := queue[n..];
    }

    method JumpTo(position: int) returns (ok: bool)
      requires Valid()
      modifies `queue, `jobs, `current
      ensures Valid() && Model() == Step(old(Model()), E(Edit.JumpTo(position)))
      ensures ok == Upcoming(old(TheDeck()), position)
    {
      ghost var s := Model();
      if position < 1 || position > |queue| {
        return false;
      }
      current := None;
      DropFirst(position - 1);
      StepGood(s, E(Edit.JumpTo(position)), Model());
      return true;
    }

    /** Ends the current song and discards slots, up to count in all. */
    method SkipSlots(count: nat) returns (skipped: nat)
      requires CanSkip(count)
      modifies `queue, `jobs, `current
      ensures TheDeck() == SkipDeck(old(TheDeck()), count)
      ensures skipped == Min(count, |old(queue)| + if old(current).Some? then 1 else 0)
    {
      skipped := 0;
      if current.Some? {
        skipped := 1;
        current := None;
      }
      var discard := Min(count - skipped, |queue|);
      DropFirst(discard);
      skipped := skipped + discard;
    }

    method SkipN(count: int) returns (ok: bool, skipped: nat)
      requires Valid()
      modifies `queue, `jobs, `current, `networkAttempts, `halted
      ensures Valid() && Model() == Step(old(Model()), E(Edit.SkipN(count)))
      ensures ok == CanSkip(count)
      ensures ok ==> skipped == Min(count, |old(queue)| + if old(current).Some? then 1 else 0)
    {
      ghost var s := Model();
      if count < 1 || count > MAX_QUEUE + 1 {
        return false, 0;
      }
      skipped := SkipSlots(count);
      if networkAttempts > 0 {
        networkAttempts, halted := 0, false;
      }
      StepGood(s, E(Edit.SkipN(count)), Model());
      return true, skipped;
    }

    /** Empties the queue, cancels every job, and begins a new generation. */
    method Empty()
      modifies `queue, `jobs, `modes, `generation, `halted, `networkAttempts
      ensures Model() == PlayerState.Clear(old(Model()))
    {
      CancelJobs();
      generation := generation + 1;
      queue := [];
      modes := modes.(loop := Off);
      halted := false;
      networkAttempts := 0;
      assert TheDeck() == old(TheDeck()).(queue := [], jobs := CancelAll(old(jobs)));
    }

    method Clear()
      requires Valid()
      modifies `queue, `jobs, `modes, `generation, `halted, `networkAttempts
      ensures Valid() && Model() == Step(old(Model()), C(ClearQueue))
    {
      ghost var s := Model();
      Empty();
      StepGood(s, C(ClearQueue), Model());
    }

    /** Also ends the current song, any voice recovery and the provider incident. */
    method Halt()
      modifies `queue, `jobs, `modes, `generation, `halted, `networkAttempts, `voice, `providerBlocked, `current
      ensures Model() == PlayerState.Stop(old(Model()))
    {
      Empty();
      voice := voice.(epoch := voice.epoch + 1);
      providerBlocked := false;
      current := None;
    }

    method Stop()
      requires Valid()
      modifies `queue, `jobs, `modes, `generation, `halted, `networkAttempts, `voice, `providerBlocked, `current
      ensures Valid() && Model() == Step(old(Model()), C(StopPlayback))
    {
      ghost var s := Model();
      Halt();
      StepGood(s, C(StopPlayback), Model());
    }

    method Leave()
      requires Valid()
      modifies `queue, `jobs, `modes, `generation, `halted, `networkAttempts, `voice, `providerBlocked, `current
      ensures Valid() && Model() == Step(old(Model()), C(LeaveVoice))
    {
      ghost var s := Model();
      voice := voice.(attached := false);
      Halt();
      StepGood(s, C(LeaveVoice), Model());
    }

    method Replay() returns (ok: bool)
      requires Valid()
      modifies `queue, `nextOcc, `current
      ensures Valid() && Model() == Step(old(Model()), E(ReplayCurrent))
      ensures ok == CanReplay(old(TheDeck()))
    {
      ghost var s := Model();
      if current.None? || |queue| >= MAX_QUEUE {
        return false;
      }
      var t := current.value.(offset := 0);
      current := None;
      queue := [Ready(t, nextOcc)] + queue;
      nextOcc := nextOcc + 1;
      StepGood(s, E(ReplayCurrent), Model());
      return true;
    }

    /** The earlier song from its beginning, and then the interrupted one, are next. */
    method PutBack(earlier: Track)
      modifies `queue, `nextOcc, `current
      ensures TheDeck() == BackTo(old(TheDeck()), earlier)
    {
      var prefix := [Ready(earlier.(offset := 0), nextOcc)];
      if current.Some? {
        prefix := prefix + [Ready(current.value, nextOcc + 1)];
      }
      nextOcc := nextOcc + 2;
      current := None;
      queue := prefix + queue;
    }

    method Previous() returns (reply: Reply)
      requires Valid()
      modifies `queue, `nextOcc, `current, `tape, `halted
      ensures Valid() && Model() == Step(old(Model()), E(PlayPrevious))
      ensures reply == PreviousReply(old(Model()))
    {
      ghost var s := Model();
      var n := |tape.history|;
      if current.Some? && tape.startedSequence == tape.sequence {
        n := n - 1;
      }
      if n == 0 || closed || !voice.attached {
        return Refused;
      }
      var needed := 1;
      if current.Some? {
        needed := needed + 1;
      }
      if |queue| + needed > MAX_QUEUE {
        return Refused;
      }
      if n < 0 {
        return Panics;
      }
      PutBack(tape.history[n - 1]);
      tape := tape.(history := tape.history[..n - 1]);
      halted := false;
      StepGood(s, E(PlayPrevious), Model());
      return Done;
    }

    method SetLoopMode(mode: Loop)
      requires Valid()
      modifies `modes
      ensures Valid() && Model() == Step(old(Model()), C(SetLoop(mode)))
    {
      ghost var s := Model();
      modes := modes.(loop := mode);
      StepGood(s, C(SetLoop(mode)), Model());
    }

    method SetAutoplayMode(enabled: bool)
      requires Valid()
      modifies `modes
      ensures Valid() && Model() == Step(old(Model()), C(SetAutoplay(enabled)))
    {
      ghost var s := Model();
      modes := modes.(autoplay := enabled);
      StepGood(s, C(SetAutoplay(enabled)), Model());
    }

    // -------------------------------------------------------------------------
    // Voice
    // -------------------------------------------------------------------------

    method Attach() returns (ok: bool)
      requires Valid()
      modifies `voice, `generation
      ensures Valid() && Model() == Step(old(Model()), T(AttachVoice))
      ensures ok == (!old(closed) && !old(voice.attached))
    {
      ghost var s := Model();
      if closed || voice.attached {
        return false;
      }
      voice := voice.(attached := true);
      voice := voice.(blocked := false);
      voice := voice.(incident := false);
      voice := voice.(attempts := 0);
      generation := generation + 1;
      StepGood(s, T(AttachVoice), Model());
      return true;
    }

    method SuspendLocked()
      modifies `voice
      ensures Model() == old(Model()).(voice := Suspend(old(Model()).voice))
    {
      if !voice.blocked {
        voice := voice.(blocked := true);
        if !voice.incident {
          voice := voice.(incident := true);
          voice := voice.(attempts := 0);
        }
      }
    }

    method SuspendVoice()
      requires Valid()
      modifies `voice, `attempt
      ensures Valid() && Model() == Step(old(Model()), T(LoseVoice))
    {
      ghost var s := Model();
      if !voice.attached || closed {
        return;
      }
      SuspendLocked();
      if attempt.Some? && current.Some? {
        attempt := Some(attempt.value.(interrupted := true));
      }
      StepGood(s, T(LoseVoice), Model());
    }

    method BeginVoiceRecovery() returns (begun: bool)
      requires Valid()
      modifies `voice
      ensures Valid() && Model() == Step(old(Model()), T(BeginRecovery))
      ensures begun == CanRecover(old(Model()))
    {
      ghost var s := Model();
      if attempt.Some? || voice.recovering.Some? || !voice.blocked || voice.attempts >= VOICE_ATTEMPTS
         || |queue| == 0 || !voice.attached || closed {
        return false;
      }
      voice := voice.(recovering := Some(Recovery(voice.epoch, false)));
      StepGood(s, T(BeginRecovery), Model());
      return true;
    }

    /** Spends an attempt while the epoch is current and the budget lasts. */
    method SpendAttempt() returns (calls: bool)
      modifies `voice
      ensures calls == Calls(old(Model())) && voice == RecoverCall(old(Model()))
    {
      if voice.recovering.None? || voice.recovering.value.calling {
        return false;
      }
      if closed || voice.recovering.value.epoch != voice.epoch || voice.attempts >= VOICE_ATTEMPTS {
        voice := voice.(recovering := None);
        return false;
      }
      voice := voice.(attempts := voice.attempts + 1);
      voice := voice.(recovering := Some(voice.recovering.value.(calling := true)));
      return true;
    }

    /** One turn of the recovery loop, up to the call of the transport. */
    method RecoverTurn() returns (calls: bool)
      requires Valid()
      modifies `voice
      ensures Valid() && Model() == Step(old(Model()), T(CallRecover))
      ensures calls == Calls(old(Model()))
    {
      ghost var s := Model();
      calls := SpendAttempt();
      StepGood(s, T(CallRecover), Model());
    }

    /** The transport answered. */
    method RecoverAnswer(ok: bool)
      requires Valid()
      modifies `voice
      ensures Valid() && Model() == Step(old(Model()), T(EndRecover(ok)))
    {
      ghost var s := Model();
      if voice.recovering.None? || !voice.recovering.value.calling {
        return;
      }
      if closed || voice.recovering.value.epoch != voice.epoch {
        voice := voice.(recovering := None);
      } else if ok {
        voice := voice.(blocked := false);
        voice := voice.(recovering := None);
      } else if voice.attempts >= VOICE_ATTEMPTS {
        voice := voice.(recovering := None);
      } else {
        voice := voice.(recovering := Some(voice.recovering.value.(calling := false)));
      }
      StepGood(s, T(EndRecover(ok)), Model());
    }

    method SetPaused(paused: bool)
      requires Valid()
      modifies `voice, `halted, `networkAttempts
      ensures Valid() && Model() == Step(old(Model()), C(Pause(paused)))
    {
      ghost var s := Model();
      if voice.blocked && |queue| > 0 {
        if !paused && voice.attempts >= VOICE_ATTEMPTS {
          voice := voice.(attempts := 0);
        }
      } else if !paused && !providerBlocked && halted {
        halted := false;
        networkAttempts := 0;
      }
      StepGood(s, C(Pause(paused)), Model());
    }

    method CompleteRecovery()
      modifies `networkAttempts, `voice
      ensures Model() == PlayerState.CompleteRecovery(old(Model()))
    {
      networkAttempts := 0;
      if voice.incident {
        voice := voice.(incident := false);
        voice := voice.(attempts := 0);
      }
    }

    // -------------------------------------------------------------------------
    // Playback
    // -------------------------------------------------------------------------

    method TakeHead() returns (offset: nat)
      requires queue != []
      modifies `queue, `jobs, `current, `currentOcc, `attempt
      ensures TheDeck() == Taken(old(TheDeck())) && offset == old(queue)[0].track.offset
    {
      var entry := queue[0];
      ReleaseEntry(entry);
      queue := queue[1..];
      current, currentOcc := Some(entry.track), entry.occ;
      attempt := Some(Attempt(entry.track.offset, false));
      offset := entry.track.offset;
    }

    /** The loop takes the head of the queue when nothing holds it back. */
    method SelectHead(permit: bool) returns (selected: bool)
      requires Valid()
      modifies `queue, `jobs, `tape, `current, `currentOcc, `attempt
      ensures Valid() && Model() == Step(old(Model()), P(Playing.SelectHead(permit)))
      ensures selected == CanSelect(old(Model()), permit)
    {
      ghost var s := Model();
      if attempt.Some? || voice.recovering.Some? || closed || !voice.attached || voice.blocked
         || (providerBlocked && !permit)
         || halted || |queue| == 0 || queue[0].pending {
        return false;
      }
      var offset := TakeHead();
      tape := tape.(sequence := tape.sequence + 1);
      tape := tape.(checkpoint := offset);
      tape := tape.(confirmed := offset);
      StepGood(s, P(Playing.SelectHead(permit)), Model());
      return true;
    }

    method CountFrame()
      requires current.Some?
      modifies `tape, `networkAttempts, `voice
      ensures Model() == PlayerState.ConfirmFrame(old(Model()))
    {
      tape := tape.(confirmed := tape.confirmed + FRAME);
      if tape.confirmed - current.value.offset >= CHECKPOINT {
        CompleteRecovery();
      }
      if tape.confirmed - tape.checkpoint >= CHECKPOINT {
        tape := tape.(checkpoint := tape.confirmed);
      }
    }

    method ConfirmFrame(attemptSequence: nat)
      requires Valid()
      modifies `tape, `networkAttempts, `voice
      ensures Valid() && Model() == Step(old(Model()), P(FrameSent(attemptSequence)))
    {
      ghost var s := Model();
      if attempt.None? || attempt.value.interrupted || closed || current.None? || tape.sequence != attemptSequence {
        return;
      }
      CountFrame();
      StepGood(s, P(FrameSent(attemptSequence)), Model());
    }

    /** Final metadata arrives before the first frame. */
    method SetPlaybackTrack(attemptSequence: nat, resolved: Track)
      requires Valid()
      modifies `current
      ensures Valid() && Model() == Step(old(Model()), P(SetTrack(attemptSequence, resolved)))
    {
      ghost var s := Model();
      if attempt.None? || attempt.value.interrupted || closed || current.None? || tape.sequence != attemptSequence
         || tape.startedSequence == attemptSequence {
        return;
      }
      current := Some(resolved.(offset := current.value.offset));
      StepGood(s, P(SetTrack(attemptSequence, resolved)), Model());
    }

    method AnnounceStart(attemptSequence: nat)
      requires Valid()
      modifies `tape
      ensures Valid() && Model() == Step(old(Model()), P(FirstFrame(attemptSequence)))
    {
      ghost var s := Model();
      if attempt.None? || attempt.value.interrupted || closed || current.None? || tape.sequence != attemptSequence
         || tape.startedSequence == attemptSequence {
        return;
      }
      tape := tape.(startedSequence := attemptSequence);
      if !(current.value.offset > 0) {
        tape := tape.(history := tape.history + [current.value]);
      }
      if |tape.history| > MAX_HISTORY {
        tape := tape.(history := tape.history[|tape.history| - MAX_HISTORY..]);
      }
      StepGood(s, P(FirstFrame(attemptSequence)), Model());
    }

    /** The current track goes back to the head of the queue with its confirmed progress. */
    method Retain()
      requires current.Some?
      modifies `queue
      ensures Ended(TheDeck()) == Kept(old(TheDeck()), current.value.(offset := tape.confirmed))
    {
      var retained := current.value.(offset := tape.confirmed);
      if !PastHalf(retained) {
        queue := [Ready(retained, currentOcc)] + queue;
      }
    }

    /** A network failure is tried again twice, then the queue halts. */
    method Retry()
      requires current.Some?
      modifies `queue, `networkAttempts, `halted
      ensures Ended(TheDeck()) == Kept(old(TheDeck()), current.value.(offset := tape.confirmed))
      ensures networkAttempts == old(networkAttempts) + 1 && halted == (old(halted) || networkAttempts > 2)
    {
      Retain();
      networkAttempts := networkAttempts + 1;
      if networkAttempts > 2 {
        halted := true;
      }
    }

    /** The loop mode puts the song back, from its beginning. */
    method RepeatTrack()
      requires current.Some? && |queue| < MAX_QUEUE
      modifies `queue, `nextOcc
      ensures Ended(TheDeck()) == Repeated(old(TheDeck()), current.value, modes.loop)
    {
      var repeated := Ready(current.value.(offset := 0), nextOcc);
      if modes.loop == One {
        queue := [repeated] + queue;
        nextOcc := nextOcc + 1;
      }
      if modes.loop == All {
        queue := queue + [repeated];
        nextOcc := nextOcc + 1;
      }
    }

    /** What becomes of a track that was neither cancelled nor shut down; each treatment excludes the ones after it. */
    method Treat(ending: Ending)
      requires attempt.Some? && current.Some? && !closed
      modifies `queue, `nextOcc, `voice, `networkAttempts, `halted, `providerBlocked
      ensures Model().(deck := Ended(TheDeck())) == Finish(old(Model()), ending)
    {
      var offset, played := attempt.value.offset, tape.startedSequence == tape.sequence;
      if ending.VoiceError? || attempt.value.interrupted {
        SuspendLocked();
        Retain();
      } else if ending.ProviderError? {
        Retain();
        providerBlocked := true;
      } else if ending.Eof? {
        CompleteRecovery();
        if played && |queue| < MAX_QUEUE {
          RepeatTrack();
        }
      } else if Transient(played, offset, ending) {
        Retry();
      } else if offset > 0 {
        queue := [Ready(current.value.(offset := tape.confirmed), currentOcc)] + queue;
        halted := true;
      }
    }

    /** The teardown of an attempt. */
    method TrackEnded(ending: Ending)
      requires Valid() && attempt.Some?
      modifies `queue, `nextOcc, `current, `attempt, `voice, `networkAttempts, `halted, `providerBlocked
      ensures Valid() && Model() == Step(old(Model()), P(TrackEnds(ending)))
    {
      ghost var s := Model();
      if current.Some? && !closed {
        Treat(ending);
      }
      current := None;
      attempt := None;
      StepGood(s, P(TrackEnds(ending)), Model());
    }

    // -------------------------------------------------------------------------
    // Collection resolution
    // -------------------------------------------------------------------------

    /** Fills or removes the slot of one result; it never appends. */
    method CommitResult(job: nat, r: Result) returns (goOn: bool)
      requires Valid()
      modifies `queue, `jobs
      ensures Valid() && Model() == Step(old(Model()), R(Resolving.CommitResult(job, r)))
      ensures goOn == (old(providerBlocked) || Running(old(TheDeck()), job))
    {
      ghost var s := Model();
      if providerBlocked {
        return true;
      }
      if job !in jobs || jobs[job].cancelled {
        return false;
      }
      var i := 0;
      while i < |queue| && !AtSlot(queue[i], job, r.index)
        invariant i <= |queue|
        invariant forall k | 0 <= k < i :: !AtSlot(queue[k], job, r.index)
      {
        i := i + 1;
      }
      FindIsFirst(queue, job, r.index, i);
      if i < |queue| {
        if r.failed || r.skipped {
          ReleaseEntry(queue[i]);
          queue := queue[..i] + queue[i + 1..];
        } else {
          queue := queue[i := queue[i].(track := r.track, pending := false)];
        }
      }
      StepGood(s, R(Resolving.CommitResult(job, r)), Model());
      return true;
    }

    method RecordResult(job: nat, r: Result)
      requires Valid()
      modifies `jobs
      ensures Valid() && Model() == Step(old(Model()), R(Resolving.RecordResult(job, r)))
    {
      ghost var s := Model();
      if providerBlocked || job !in jobs || r.index >= |jobs[job].recorded| || jobs[job].recorded[r.index] {
        return;
      }
      var j := jobs[job];
      var skipped := r.skipped || j.cancelled || r.index >= |j.wanted| || !j.wanted[r.index];
      j := j.(recorded := j.recorded[r.index := true]);
      if skipped {
        j := j.(skipped := j.skipped + 1);
      } else if r.failed {
        j := j.(failed := j.failed + 1);
      } else {
        j := j.(resolved := j.resolved + 1);
      }
      jobs := jobs[job := j];
      StepGood(s, R(Resolving.RecordResult(job, r)), Model());
    }

    method CancelCollection(job: nat)
      requires Valid()
      modifies `jobs
      ensures Valid() && Model() == Step(old(Model()), R(JobCancelled(job)))
    {
      ghost var s := Model();
      if job in jobs {
        jobs := jobs[job := jobs[job].(cancelled := true)];
      }
      StepGood(s, R(JobCancelled(job)), Model());
    }

    /** Only unresolved positions of the job are discarded. */
    method JobEnds(job: nat)
      requires Valid()
      modifies `queue, `jobs
      ensures Valid() && Model() == Step(old(Model()), R(Resolving.JobEnds(job)))
    {
      ghost var s := Model();
      if job !in jobs {
        return;
      }
      var kept := [];
      for i := 0 to |queue|
        invariant kept == Resolved(queue[..i], job)
      {
        if queue[i].job != job || !queue[i].pending {
          kept := kept + [queue[i]];
        }
        assert queue[..i + 1][..i] == queue[..i];
      }
      assert queue[..|queue|] == queue;
      queue := kept;
      jobs := jobs - {job};
      StepGood(s, R(Resolving.JobEnds(job)), Model());
    }
  }

  lemma ShiftedSlices(q: Queue, i: nat, j: nat)
    requires i < |q| && j < |q|
    ensures i < j ==> Moved(q, i, j) == q[..i] + q[i + 1..j + 1] + [q[i]] + q[j + 1..]
    ensures j <= i ==> Moved(q, i, j) == q[..j] + [q[i]] + q[j..i] + q[i + 1..]
  {
  }

  lemma {:induction false} FindIsFirst(q: Queue, job: nat, index: nat, i: nat)
    requires i <= |q| && (i < |q| ==> AtSlot(q[i], job, index))
    requires forall k | 0 <= k < i :: !AtSlot(q[k], job, index)
    ensures Find(q, job, index) == i
  {
    if i > 0 {
      FindIsFirst(q[1..], job, index, i - 1);
    }
  }
}
