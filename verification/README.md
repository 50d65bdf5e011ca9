# Whiterun: a verified model of the music bot's hard parts

Whiterun plays music in Discord guilds. This project models the parts whose correctness is not visible from one
function body, and proves what they are for:

- **The guild player** (`PlayerState`, `GuildPlayers`, `SlotIdentity`, `Progress`, `Commands`, `Endings`, `VoiceRecovery`,
  `Retention`, `Order`, `Restart`, `HistoryCount`, `Crashes`). One queue holds ready and
  pending slots. Commands, the playback loop, resolvers and the voice transport all edit it, each in one critical
  section. `PlayerState.Step` is that state machine; a run is any sequence of its events, so every interleaving of
  goroutines at critical sections is covered. `GuildPlayers.GuildPlayer` is the object: its methods change the fields
  in place and loop where the source loops. Each is proved to be one event of `PlayerState.Step` and to keep
  `Valid()`, which is what every run keeps (`Progress.Good`): so the theorems about runs are theorems about any
  sequence of calls. The other modules prove those. `Commands`, `Endings` and `VoiceRecovery` say what each step means
  for the songs lined up, in the words of the song list, without the functions that the methods are specified by.
- **Collection resolution** (`Collections`, `Counters`, `Coordinators`, `Completion`, `Horizon`): searches finish in any
  order, slots are published in queue order; the coordinators of all collections interleave with everything else and
  never commit to a slot that is not pending; which songs are unresolved when one finishes; what the counters count;
  how far ahead of the audio a search may start.
- **Provider admission** (`Admission`, `Breakers`): the circuit breaker with one trial at a time, a refundable budget and
  start pacing; `Breakers` says when it opens and closes, and when a trial or a start is granted.
- **Physical quota** (`Quota`, `QuotaAdmission`, `QuotaAlerts`, `Alerting`, `StateSlots`, `QuotaCrash`): checkpoint space
  is reserved before the log grows, alerts with hysteresis, a two-slot crash-safe state file, and the reservation across
  interrupted operations; `QuotaAdmission` and `Alerting` say what is admitted and when an alert rises and is sent.
- **Kernels**: Ogg packet reassembly (`Ogg`, `OggStreams`, `OggOutcomes`; framing after section 6 of RFC 3533, header
  packets after section 5 of RFC 7845), edit distance (`EditDistance`), the search cache (`SearchCache`,
  `CacheService`), the selection loop (`Discovery`) and the queue message (`QueueLayout`).

Where the source updates state step by step, the model is a class or a loop proved against a specification function,
and the properties are lemmas about that function and about runs of it. Times are explicit arguments. I/O, clocks and
foreign calls are parameters: what a search, a transport or a store answers is any value.

## What the proofs found

Six properties that the design suggests do not hold of the code without a condition. Each has a concrete state or run
that shows it and the exact condition, for all inputs.

- A snapshot written between the first confirmed frame of a fresh song and the announcement of its start, by any command
  that falls into that gap, loses the song from the history for good if a crash follows before the start: the snapshot
  has progress but no start, so the song comes back as a resumed one (`Crashes.StartLost`; exactly when, in any run,
  `Crashes.CrashCountsOnceIff`). The frame alone writes nothing and loses nothing.
- At the player's own boundary a song can be counted in the history twice: its start is announced by a silence frame, and
  the voice fails before any other frame is confirmed (`HistoryCount.CountedTwice`; exactly when,
  `HistoryCount.CountedOnceIff`). It takes another play function than the streamer here, which sends silence only after
  audio (internal/player/stream.go:422-433) and encodes audio at a constant bitrate (internal/player/stream.go:144): with
  a frame confirmed before the first announcement a playing is counted exactly once (`HistoryCount.AudioFirstCountsOnce`).
- `Previous` can index before the start of the history: the count of earlier songs is -1, and the guard only tests for
  0. One ordinary run gets there: a song is heard, the next is interrupted by the voice and resumes, `Previous` goes
  back, the first song is skipped before it starts, and the resumed one starts again
  (`HistoryCount.PreviousPanicsInARun`; after a lost start, `Crashes.PreviousCanPanic`; exactly when,
  `Restart.PreviousPanicsIff`).
- A song of a collection that was found, and is counted as resolved, can be dropped: while the first playable song is
  sought, a commit that the blocked provider turns away is taken for done (internal/player/collection.go:277-279 and
  389-402), so that the coordinator of a collection whose last song is found then finishes and removes its slot
  (`Completion.FoundSongDropped`; exactly which positions are left, in every execution, `Completion.UnresolvedIff`).
- Creating the quota state checks the files but not a write-ahead log that already exists, so the checkpoint of that
  log can be refused (`Quota.CreationMayRefuseCheckpoint`; exactly when, `Quota.CreationSecuredIff`).
- A snapshot beyond capacity is refused by `ConfigureStore`, but its loop mode and autoplay have been taken by then
  (`GuildPlayers.RefusalTakesLoop`; exactly when a refusal changes nothing, `GuildPlayers.RefusalUnchangedIff`). No
  snapshot of this player is ever beyond capacity (`Restart.EverySnapshotRestores`).

Words used below: a *slot* is the pair of collection job and position; a *playing* is one queued playing of a track,
named by a number that the model keeps for the sake of the statements and that no step decides by.

## Model

| member | source | states |
|---|---|---|
| SlotIdentity.StepKeeps | internal/player/collection.go:69-142 | Every step of commands, playback, resolvers and transport keeps: slots unique; a job that is not cancelled wants exactly the positions that have a slot; every pending slot's job is registered; playings unique; at most 1001 songs with the current one; and no slot of an issued job comes back |
| SlotIdentity.RunSound | internal/player/player.go:252-507 | All of that at every point of every run |
| SlotIdentity.RemovedStaysRemoved | internal/player/collection.go:269-309 | A slot that is gone is gone at every later point: a late result never resurrects it |
| SlotIdentity.SelectionIsFinal | internal/player/player.go:302-306 | Only a resolved head becomes current, and its slot never reappears |
| SlotIdentity.LinkedWithout | internal/player/collection.go:114-142 | Removing a slot and releasing or discarding it in its job keeps queue and jobs in agreement |
| SlotIdentity.LinkedReserved | internal/player/collection.go:81-105 | Reserving a collection gives each position exactly one slot and one want, under a number no slot had |
| SlotIdentity.LinkedResolved | internal/player/collection.go:344-357 | Teardown of a job drops only its unresolved slots and keeps all others in agreement |
| SlotIdentity.KeepsDrop | internal/player/queue.go:132-137 | Discarding the first slots one after the other keeps everything above |
| SlotIdentity.KeepsMove | internal/player/controls.go:29-47 | Moving a slot keeps everything above: nothing is lost or doubled |
| SlotIdentity.KeepsShuffle | internal/player/controls.go:50-63 | So does any sequence of swaps |
| SlotIdentity.KeepsCommit | internal/player/collection.go:271-309 | So does any result, for any job, at any time |
| SlotIdentity.KeepsFinish | internal/player/player.go:372-477 | So does every ending of an attempt: the treatments exclude each other, so the track returns at most once |
| SlotIdentity.KeepsBackTo | internal/player/previous.go:22-37 | So does Previous, which puts two songs in front |
| SlotIdentity.FreshSound | internal/player/durable.go:40-72 | A player restored with up to 1001 songs starts sound |
| Progress.ProgressConserved | internal/player/resume.go:13-33 | Between any two points of a coordinated run (as every execution is, by Coordinators.ExecutionCoordinated) a playing has moved by exactly 20 ms for each frame confirmed for it, across any retentions, shuffles and reselections; so never back |
| Progress.CoordinatedIsDue | internal/player/collection.go:406-425 | In a run where each commit is for a slot that was pending when it was chosen, with no other commit for it since, every commit finds its slot pending or gone |
| Progress.StaysPending | internal/player/collection.go:269-309 | A pending slot stays pending or goes away, until a commit for its own position |
| Progress.StepGood | internal/player/player.go:252-507 | Every step keeps soundness, checkpoint distance, history bound and voice budget together |
| Progress.RunPaced | internal/player/resume.go:28-32 | At every point of every run less than five seconds of confirmed audio lie behind the last checkpoint, the history has at most 100 songs, and a fresh song that has started is the last in it |
| Progress.CallsBounded | internal/player/voice_recovery.go:74-146 | Between renewals (attach, resume after exhaustion, clean end, five seconds of audio) the attempts count the recovery calls exactly; so there are at most five |
| Progress.BudgetRun | internal/player/voice_recovery.go:59-72 | At every point attempts are at most five, none are spent outside an incident, and a blocked transport has no listening attempt |
| Progress.SteadyTakesFrames | internal/player/resume.go:19-27 | The renewal by audio takes 250 frames of one attempt; a transport that dies sooner renews nothing |
| Commands.EnqueueAppends | internal/player/player.go:150-172 | With a current ticket, voice and room for all, the new songs stand at the end in the order given, ready; otherwise nothing happens |
| Commands.CollectionAppends | internal/player/collection.go:69-108 | A collection of 1 to 500 songs stands at the end, position by position, pending, under a new job; otherwise nothing happens |
| Commands.RemovePlays | internal/player/controls.go:14-28 | The song at that place is gone and all others keep their order |
| Commands.JumpPlays | internal/player/controls.go:64-80 | What is lined up begins with the song at that place; the current one is over |
| Commands.SkipPlays | internal/player/queue.go:116-150 | Of what is lined up, the current song first, exactly the first n are gone, for 1 to 1001 |
| Commands.ReplayPlays | internal/player/controls.go:81-97 | The current song is first, from its beginning, then the queue; with a full queue nothing happens |
| Commands.PreviousPlays | internal/player/previous.go:11-42 | The last song heard before the current one is next, from its beginning, then the current song and the old queue in order; the history followed by that song is the history that was heard before the current song |
| Commands.PreviousDoneIff | internal/player/previous.go:11-27 | Previous is done if and only if there is voice, a song heard before the current one, and room for it and the current one; else nothing happens |
| Commands.ClearingEmpties | internal/player/player.go:177-220 | Clear, stop and leave empty the queue and cancel every job; clear lets the song play on, leave detaches |
| Commands.LastSlotCancels | internal/player/collection.go:123-142 | Removing a slot cancels its job if and only if the job wants no other |
| Commands.HeadPlaysIff | internal/player/player.go:257-333 | The scheduler plays the head exactly when nothing keeps it back, in a new attempt from its stored offset |
| Commands.OnlyHeadPlays | internal/player/player.go:302-333 | No other step starts a song |
| Commands.MetadataReplace | internal/player/player.go:349-358 | Final metadata replace the song before its first frame, where it is; later they change nothing |
| Commands.LateResultIgnored | internal/player/collection.go:271-306 | A result for an ended or cancelled job, for a slot that is gone, or while the provider is blocked changes nothing |
| Commands.StartExtendsHistory | internal/player/lifecycle.go:152-175 | The first frame of a fresh song makes it the last in the history, whose newest 100 stay; of a resumed one it changes nothing there |
| Commands.SteadyAudioRenews | internal/player/resume.go:13-27 | Five seconds of audio in one attempt close both incidents, and no frame before that does |
| Commands.HaltedUntil | internal/player/player.go:150-230 | A halted queue is released by exactly these: songs added, going back, clear, stop, leave, a skip of a failing song, or resuming |
| Commands.GenerationStep | internal/player/player.go:177-220 | The generation counts the clears, stops, leaves and attachments |
| Commands.StaleTicketRefused | internal/player/player.go:150-157 | A search begun before a clear, stop, leave or attachment adds nothing afterwards, in any run |
| Endings.PastHalfIff | internal/player/resume.go:35-37 | A song is past its middle if and only if it is not live, has a length, and twice its progress reaches it |
| Endings.VoiceFailureKeeps | internal/player/player.go:372-389 | A transport failure suspends the voice and puts the song back at the head with its confirmed progress, unless past its middle |
| Endings.ProviderFailureKeeps | internal/player/player.go:390-401 | A provider failure blocks the provider and puts the song back likewise |
| Endings.NetworkFailureKeeps | internal/player/player.go:411-441 | A lost network, a stall or a timeout, and once the song has started also a failed decoder, extractor or a 403, put the song back likewise; the third such failure in a row halts the queue. A resumed song whose decoder fails before it starts is not tried again |
| Endings.ResumeFailureHalts | internal/player/player.go:445-452 | Any other failure of a resumed song puts it back wherever it has got to, and halts the queue |
| Endings.FreshFailureAdvances | internal/player/player.go:453-482 | Any other failure of a fresh song gives it up, and nothing holds the next one back |
| Endings.CleanEnd | internal/player/player.go:441-471 | A clean end closes both incidents; a song that started comes again, first or last, where the loop says so and there is room |
| Endings.CancelledEnd | internal/player/player.go:372-374 | The end of a cancelled attempt, or one at shutdown, changes nothing but that it is over |
| VoiceRecovery.CircuitOpenIff | internal/player/voice_recovery.go:47-146 | The voice circuit is open after a step if and only if it was or the step reports a loss, and the step neither attaches nor confirms a recovery of the current epoch |
| VoiceRecovery.LossInterrupts | internal/player/voice_recovery.go:47-72 | A loss interrupts the attempt that is playing |
| VoiceRecovery.AttachStartsAnew | internal/player/player.go:125-143 | Attaching begins with a closed circuit, the whole budget and a new generation, once |
| VoiceRecovery.RecoveryBeginsIff | internal/player/voice_recovery.go:74-84 | Recovery begins exactly between attempts, for a queue that waits, while some of the five attempts are left |
| VoiceRecovery.RecoveryTurn | internal/player/voice_recovery.go:98-107 | A turn of the loop calls the transport and spends an attempt, or ends the loop |
| VoiceRecovery.RecoveryFailure | internal/player/voice_recovery.go:124-146 | A failed call is followed by another turn until the fifth; a stop, leave or shutdown ends the loop at once |
| VoiceRecovery.StopOutdates | internal/player/voice_recovery.go:148-157 | Stop and leave outdate the recovery that is running |
| VoiceRecovery.RenewalRenews | internal/player/pause.go:67-79 | A renewal gives the whole budget back |
| VoiceRecovery.OnlyRenewalRevives | internal/player/voice_recovery.go:74-97 | In any run an exhausted recovery stays so and nothing plays until a renewal |
| Retention.EndsExactly | internal/player/player.go:365-483 | At every point of every coordinated run a playing survives the step if and only if the step is none of a short list: it is removed, skipped, jumped over, cleared, stopped, replaced by replay or previous, or its attempt ends live other than by a voice, provider or retried network failure before its middle, or by any other failure of a resumed song (the failures are listed by name). No search and no reordering loses it |
| Retention.StaysUntilEnded | internal/player/player.go:374-448 | In every coordinated run a playing is there until such a step |
| Order.MoveKeepsOrder | internal/player/controls.go:29-47 | The moved slot is where it was sent and all others keep their order |
| Order.ShuffleIsPermutation | internal/player/controls.go:50-63 | Any swaps leave the same slots |
| Order.SwapExchanges | internal/player/controls.go:50-63 | Each swap exchanges its two slots and leaves the others, in the order the swaps are given |
| Order.LoopOneRepeats | internal/player/player.go:458-471 | In the loop of one song it begins again from its start and the queue stays |
| Order.LoopAllReturns | internal/player/player.go:458-471 | In the loop of the queue, after every song has ended cleanly once, the songs stand in the order they began in, each from its start |
| Restart.SnapshotRestores | internal/player/durable.go:40-92 | The snapshot of any sound state restores, as the current song at its confirmed progress (unless past its middle) and then the queue in order, all ready; with its modes and its history, less a song that was announced without a confirmed frame; the restored player is sound |
| Restart.EverySnapshotRestores | internal/player/durable.go:52-60 | At every point of every run the capacity check of a restore accepts the snapshot |
| Restart.RestoreTwice | internal/player/durable.go:40-92 | A restart that plays nothing loses nothing: its snapshot restores the same player |
| Crashes.RunLags | internal/player/durable.go:93-100 | At every point of every run of an open player the stored snapshot has its queue, history and modes, and the current song at its last checkpoint or later, or still at the head of the queue if it was fresh and has not started; writes beyond those of the code change nothing about that |
| Crashes.CrashKeepsSongs | internal/player/resume.go:13-33 | A crash at any point restores the interrupted song first, unless it was past its middle, and then the queue in order; less than five seconds of its confirmed audio are played again |
| Crashes.CountsOnceIff | internal/player/durable.go:62-69 | From any snapshot that close, the history counts the interrupted song exactly once if and only if the snapshot does not hold audio of a fresh song without its start (or the history already consists of 100 copies of it) |
| Crashes.CrashCountsOnceIff | internal/player/player.go:336-343 | In every run, after a crash at any point: exactly once if and only if the song has started, or no snapshot was written in its attempt between its first confirmed frame and the crash (or 100 copies) |
| Crashes.ResumedHistory | internal/player/lifecycle.go:152-175 | Attaching, selecting and starting the first restored song leads to the history that CountsOnceIff speaks of |
| Crashes.StartLost | internal/player/controls.go:98-107 | Such a run: a first song, one frame, a loop command that writes, and a crash; the history stays empty |
| Restart.PreviousPanicsIff | internal/player/previous.go:15-33 | Previous indexes outside the history exactly when a song has started with an empty history, and that song is then a resumed one |
| Crashes.PreviousCanPanic | internal/player/previous.go:15-33 | The state in which Previous indexes outside the history is reached after that crash |
| HistoryCount.PreviousPanicsInARun | internal/player/previous.go:15-33 | That state is reachable in one ordinary run of two songs, without a crash |
| HistoryCount.CountedAgainIff | internal/player/lifecycle.go:152-175 | In every coordinated run a playing that was counted in the history is counted again by a later announcement if and only if not one frame of it was confirmed before it was taken for that attempt |
| HistoryCount.CountedOnceIff | internal/player/lifecycle.go:137-175 | In every coordinated run, from its first count on, a playing stays counted exactly once if and only if every later announcement of it came after confirmed audio |
| HistoryCount.CountedOnce | internal/player/resume.go:13-33 | One confirmed frame in the attempt that counted it is enough |
| HistoryCount.AudioFirstCountsOnce | internal/player/lifecycle.go:137-146 | A playing whose first announcement followed a confirmed frame is counted exactly once in every coordinated run |
| HistoryCount.CountedTwice | internal/player/lifecycle.go:137-146 | A run at the player's boundary in which one playing is counted twice: announced by silence, interrupted, resumed |
| GuildPlayers.LoadRestores | internal/player/durable.go:40-72 | A new player configured with a snapshot that fits is exactly the restored player that the restart theorems speak of |
| GuildPlayers.RefusalUnchangedIff | internal/player/durable.go:43-60 | A refused configuration changes nothing if and only if it was refused for voice, songs or a failed load, or the loop mode and autoplay are the same |
| GuildPlayers.RefusalTakesLoop | internal/player/durable.go:51-60 | A snapshot of 1002 songs is refused, and the new player loops one song and has autoplay on from then on |
| GuildPlayers.GuildPlayer.constructor | internal/player/player.go:98-106 | A new player is the empty state, and valid |
| GuildPlayers.GuildPlayer.ConfigureStore | internal/player/durable.go:40-72 | Accepts exactly a snapshot that loads and fits on a player without voice and songs, restores it by loops, and on refusal changes at most the two modes, as specified |
| GuildPlayers.GuildPlayer.DurableState | internal/player/durable.go:73-92 | The snapshot built by loops is the specified one, and restores |
| GuildPlayers.GuildPlayer.EnqueueMany | internal/player/player.go:150-172 | Accepts exactly a current ticket with room, and appends one ready slot for each track |
| GuildPlayers.GuildPlayer.BeginCollection | internal/player/collection.go:69-108 | Accepts exactly a current ticket with 1 to 500 tracks and room, and reserves a pending slot for each |
| GuildPlayers.GuildPlayer.ReleaseEntry | internal/player/collection.go:114-122 | The job stops wanting the position, nothing else changes |
| GuildPlayers.GuildPlayer.DiscardEntry | internal/player/collection.go:123-142 | As release, and a job that wants nothing more is cancelled |
| GuildPlayers.GuildPlayer.CancelJobs | internal/player/collection.go:109-113 | Every job is cancelled and otherwise unchanged |
| GuildPlayers.GuildPlayer.RemoveAt | internal/player/controls.go:14-28 | Removes and discards exactly the slot asked for |
| GuildPlayers.GuildPlayer.MoveTo | internal/player/controls.go:29-47 | The in-place shifts put the slot where removing and reinserting it would |
| GuildPlayers.GuildPlayer.ShuffleBy | internal/player/controls.go:50-63 | The swaps are applied in order |
| GuildPlayers.GuildPlayer.JumpTo | internal/player/controls.go:64-80 | Ends the current song and discards every slot before the one asked for |
| GuildPlayers.GuildPlayer.SkipN | internal/player/queue.go:116-150 | Skips the current song and then slots, exactly as many as asked for or present |
| GuildPlayers.GuildPlayer.Clear | internal/player/queue.go:79-95 | Empties the queue, cancels every job, leaves the current song |
| GuildPlayers.GuildPlayer.Stop | internal/player/player.go:177-195 | As clear, and ends the current song and any voice recovery |
| GuildPlayers.GuildPlayer.Leave | internal/player/player.go:199-220 | As stop, and detached |
| GuildPlayers.GuildPlayer.Replay | internal/player/controls.go:81-97 | The current song is next, from its beginning, where the queue has room |
| GuildPlayers.GuildPlayer.Previous | internal/player/previous.go:11-43 | The last song heard before the current one and then the interrupted one are next (Commands.PreviousPlays); the reply says refused, done or out of range |
| GuildPlayers.GuildPlayer.Attach | internal/player/player.go:125-143 | Attaches once, with a fresh voice budget and a new generation |
| GuildPlayers.GuildPlayer.SuspendVoice | internal/player/voice_recovery.go:47-72 | Blocks the transport and interrupts the attempt; a running incident keeps its attempts |
| GuildPlayers.GuildPlayer.BeginVoiceRecovery | internal/player/voice_recovery.go:74-84 | Recovery begins exactly when it is due and there is something to play |
| GuildPlayers.GuildPlayer.RecoverTurn | internal/player/voice_recovery.go:98-107 | Calls the transport exactly while the epoch is current and the budget lasts, and spends one attempt |
| GuildPlayers.GuildPlayer.RecoverAnswer | internal/player/voice_recovery.go:124-145 | A stale or exhausted recovery ends, a confirmed one unblocks |
| GuildPlayers.GuildPlayer.SetPaused | internal/player/pause.go:67-79 | Of the voice budget and the halted queue: resuming renews an exhausted budget or releases the queue, and nothing else does |
| GuildPlayers.GuildPlayer.CompleteRecovery | internal/player/resume.go:51-58 | Ends the network and the voice incident |
| GuildPlayers.GuildPlayer.SelectHead | internal/player/player.go:302-333 | Takes the head exactly when nothing holds playback back, and begins its progress at its offset |
| GuildPlayers.GuildPlayer.ConfirmFrame | internal/player/resume.go:13-33 | Twenty milliseconds for the live attempt only, with its renewal and checkpoint |
| GuildPlayers.GuildPlayer.SetPlaybackTrack | internal/player/player.go:349-358 | Final metadata replaces the track of the live attempt before its start only, and keeps its offset |
| GuildPlayers.GuildPlayer.AnnounceStart | internal/player/lifecycle.go:152-175 | Counts a fresh song in the history once for each attempt, at most 100 |
| GuildPlayers.GuildPlayer.TrackEnded | internal/player/player.go:365-483 | Every ending is treated as specified, and so as each law of Endings says: the song kept, retried, repeated, stuck or given up |
| GuildPlayers.GuildPlayer.CommitResult | internal/player/collection.go:271-309 | Fills or removes the first slot of the position, appends nothing, and says whether to go on |
| GuildPlayers.GuildPlayer.RecordResult | internal/player/collection.go:310-329 | Counts a position once, as skipped, failed or resolved |
| GuildPlayers.GuildPlayer.JobEnds | internal/player/collection.go:344-357 | The filter loop drops exactly the job's unresolved slots |
| GuildPlayers.GuildPlayer.SetLoopMode | internal/player/controls.go:98-107 | Sets the loop mode and nothing else |
| GuildPlayers.GuildPlayer.SetAutoplayMode | internal/player/controls.go:109-115 | Sets autoplay and nothing else |
| Collections.PublishWindow | internal/player/collection.go:457-500 | For any order of arrivals, the commits are a growing prefix of the window up to the first blocked position; the queue becomes the declared publication of that prefix, and exactly the arrived positions are recorded |
| Collections.PublishReady | internal/player/collection.go:480-494 | The frontier loop commits as far as results are ready, and no further |
| Collections.AnyOrder | internal/player/collection.go:457-500 | The same searches finishing in any two orders publish the same prefix with the same results, so by PublishWindow the same queue |
| Collections.PublishedInOrder | internal/player/collection.go:480-494 | The published queue is the fold of the commits in window order |
| Collections.FoldPublishes | internal/player/collection.go:271-309 | Committing results one after the other gives the declared publication: filled where resolved, removed where failed, all else in place |
| Collections.CommitFills | internal/player/collection.go:285-306 | The slot of a playable result holds the track that was found and is ready; that of any other result is gone; no other slot changes |
| Collections.ChooseWindow | internal/player/collection.go:406-425 | The loop picks the pending positions in reach among the job's first six slots, in queue order, and counts all pending ones |
| Collections.WindowIsSlotted | internal/player/collection.go:406-425 | In a sound player the chosen positions are distinct, at most six, and each has its slot, as PublishWindow needs |
| Collections.WindowIsPending | internal/player/collection.go:406-425 | The chosen positions are pending, as Coordinators.ExecutionCoordinated needs |
| Collections.WindowIsDue | internal/player/collection.go:406-425 | The window names, in queue order, exactly the pending slots of the job in reach that have fewer than six slots of the job before them |
| Collections.RemainingIsPending | internal/player/collection.go:413-415 | What remains counts the job's pending slots |
| Collections.RunCounted | internal/player/collection.go:310-329 | In every run a job's resolved, failed and skipped positions together are the recorded ones, at most its total |
| Counters.StepCounts | internal/player/collection.go:310-329 | A job registered before and after a step counts exactly what the step records, under its outcome: skipped if nobody wants it any more, else failed or resolved |
| Counters.CountersExact | internal/player/collection.go:310-329 | In every run each of the three counters grows by exactly the positions recorded with its outcome, each once |
| Coordinators.WorkAhead | internal/player/collection.go:374-501 | A coordinator commits only a position still ahead of it, which is behind it from then on, and adds only positions it has just seen pending |
| Coordinators.ExecutionCoordinated | internal/player/collection.go:344-502 | However the first searches and windows of all collections interleave with commands, playback, cancellations and provider incidents, every commit is for a slot that was pending when it was chosen, with no other commit for it since |
| Coordinators.ProgressConserved | internal/player/resume.go:13-33 | So in every execution audio progress is conserved |
| Coordinators.EndsExactly | internal/player/player.go:365-483 | And a playing ends only by a step of the short list, never by the work of a coordinator |
| Coordinators.AudioFirstCountsOnce | internal/player/lifecycle.go:137-175 | And a playing first counted after a confirmed frame is counted exactly once |
| Completion.UnresolvedIff | internal/player/collection.go:374-401 | In every execution a coordinator that finishes on its own leaves a position unresolved if and only if it was still seeking a first song, the blocked provider had turned that position's commit away, and its slot is still there |
| Completion.AllResolved | internal/player/collection.go:374-431 | If no commit was turned away while seeking, every song of the collection that is in the queue is resolved when its coordinator finishes |
| Completion.FoundSongDropped | internal/player/collection.go:277-279 | An execution in which the one song of a collection is found, counted as resolved, and dropped |
| Horizon.ResolutionHorizon | internal/player/horizon.go:8-35 | The walk with early exits decides exactly whether everything ahead of the slot has a known length and together less than the horizon, and gives the prefix sum |
| Horizon.ReachIsPrefix | internal/player/horizon.go:22-34 | Every slot ahead of a slot in reach is in reach |
| Horizon.ConfirmingKeepsReach | internal/player/horizon.go:16-21 | Confirming audio takes no slot out of reach |
| Horizon.ProofInReachCovers | internal/media/mapping.go:40-47 | A proof checked after the estimate of a slot in reach covers its playback exactly as long as it is fresh |
| Horizon.CoversIff | internal/media/mapping.go:166-180 | Without the horizon: exactly when less than nine minutes lie ahead of the check |
| Admission.ProviderAdmission.ObserveError | internal/media/provider_admission.go:90-113 | A confirmed restriction opens or keeps the incident and counts as a failure |
| Admission.ProviderAdmission.Recover | internal/media/provider_admission.go:128-174 | Issues the one trial when it is due and the budget lasts |
| Admission.ProviderAdmission.Finish | internal/media/provider_admission.go:176-203 | Only the current trial counts; what it means for the breaker is Breakers.ClosesIff, RefundIff and TrialIssuedIff |
| Admission.ProviderAdmission.RearmBudget | internal/media/provider_admission.go:204-216 | Rearms unless a trial is out |
| Admission.ProviderAdmission.TryAdmit | internal/media/provider_admission.go:220-266 | One round of the admission loop: refused, paced, given up or granted |
| Admission.ProviderAdmission.Release | internal/media/provider_admission.go:256-265 | Releasing a second time changes nothing |
| Admission.ProviderAdmission.Confirm | internal/media/provider_admission.go:269-285 | Sustained media closes the incident only with the current epoch and probe and no new failure |
| Admission.RunSound | internal/media/provider_admission.go:220-266 | At every point of every run: slots held equal the callers in the loop or holding a grant, never above the concurrency; a trial out means blocked |
| Admission.OneTrialAtATime | internal/media/provider_admission.go:137-160 | Between two trials issued in a run the first one was ended in the name of its permit, and after that none was out |
| Admission.BudgetIsExact | internal/media/provider_admission.go:176-203 | Within an incident the attempts are the trials issued less those refunded, and stay within 0 to 3 |
| Admission.RepeatNeedsRefund | internal/media/provider_admission.go:176-203 | Two trials of a run carry the same permit only if a trial was refunded in between |
| Admission.BudgetStartsFull | internal/media/provider_admission.go:90-113 | Every change of incident starts with no attempts spent |
| Admission.BlockedStartsCarryProbe | internal/media/provider_admission.go:237-252 | A start granted while blocked carries the current probe, which the run issued |
| Admission.OldMediaNeverCloses | internal/media/provider_admission.go:269-285 | A stream admitted before the incident began never closes it |
| Admission.OnlyRearmUnsticks | internal/media/provider_admission.go:204-216 | Blocked, exhausted and without a probe is left only by Rearm |
| Admission.StartsArePaced | internal/media/provider_admission.go:240-252 | On a monotone clock two starts are an interval apart |
| Admission.WindowBound | internal/media/provider_admission.go:240-252 | Any window of length w holds at most w / interval + 1 starts |
| Breakers.BackoffValues | internal/media/provider_admission.go:13-23 | The waits are 15 s, 30 s, 60 s, and two minutes from then on |
| Breakers.OpensIff | internal/media/provider_admission.go:90-113 | The breaker opens exactly when a confirmed restriction is observed |
| Breakers.ClosesIff | internal/media/provider_admission.go:176-285 | In every run it closes exactly when it is rearmed with no trial out, or the outstanding trial, or sustained media admitted for it, succeeds and no restriction was observed since the trial was issued; a failed or cancelled trial never closes it |
| Breakers.RefundIff | internal/media/provider_admission.go:176-203 | A trial is given back exactly when it is cancelled before a start was admitted for it |
| Breakers.TrialIssuedIff | internal/media/provider_admission.go:128-174 | While it is open a caller that waits is given a trial exactly when none is out, fewer than three are spent, and the wait since the incident opened or since the last unsuccessful trial has passed |
| Breakers.StartGrantedIff | internal/media/provider_admission.go:220-266 | A caller is let in exactly when the breaker is closed, or it holds the trial, and the interval since the last start has passed |
| Breakers.FirstStartGrantedIff | internal/media/provider_admission.go:220-266 | The first start waits for nothing but the breaker |
| Quota.PhysicalQuota.ProjectedUsage | internal/storage/physical_linux.go:389-432 | The loop sums the rounded files with the grown target and reserves the checkpoint |
| Quota.PhysicalQuota.Admit | internal/storage/physical_linux.go:469-512 | Admits exactly what the reservation allows |
| Quota.PhysicalQuota.Guard | internal/storage/physical_linux.go:469-530 | The space and the alerts after a guarded write, whether refused, failed or done, as the laws of QuotaAdmission and Alerting say |
| Quota.PhysicalQuota.Truncate | internal/storage/physical_linux.go:589-611 | A shrinking truncate is applied, another is left to the guard |
| Quota.ReservationKept | internal/storage/physical_linux.go:469-530 | Every guarded write, log reset and shrinking truncate keeps the reservation |
| Quota.RunStaysWithinLimit | internal/storage/physical_linux.go:389-432 | In every run the files with the 64 KiB reserve stay within the limit, and a secured checkpoint stays secured |
| Quota.CheckpointNeverRefused | internal/storage/physical_linux.go:469-512 | In every run from a secured state, a checkpoint up to base plus log is admitted |
| Quota.CheckpointAdmittedIff | internal/storage/physical_linux.go:469-512 | The full checkpoint is admitted if and only if its space is reserved |
| Quota.CreationSecuredIff | internal/storage/physical_linux.go:185-198 | Creating the state reserves the checkpoint if and only if the existing files, the log again, the state and the reserve fit |
| Quota.CreationMayRefuseCheckpoint | internal/storage/physical_linux.go:192-198 | A 256 KiB log under a 512 KiB limit is accepted at creation and its checkpoint refused |
| QuotaAdmission.RoundedIs | internal/storage/physical_linux.go:375-380 | Sizes are rounded up to whole blocks of 4096 bytes, and no further |
| QuotaAdmission.NoGrowthAdmittedIff | internal/storage/physical_linux.go:469-512 | An operation that grows nothing is admitted exactly while the files are within the limit |
| QuotaAdmission.MainGrowthAdmittedIff | internal/storage/physical_linux.go:469-512 | The main file may grow exactly while the files with it and the reserve stay within the limit: the checkpoint's space is meant for it |
| QuotaAdmission.LogGrowthAdmittedIff | internal/storage/physical_linux.go:469-512 | The log may grow exactly if its checkpoint and the reserve fit afterwards |
| QuotaAdmission.OtherGrowthAdmittedIff | internal/storage/physical_linux.go:469-512 | Any other file may grow exactly if the pending checkpoint and the reserve still fit |
| QuotaAdmission.LogRestartAdmittedIff | internal/storage/physical_linux.go:469-512 | A log that starts again may grow exactly if its checkpoint fits on top of the main file |
| QuotaAdmission.WriteLands | internal/storage/physical_linux.go:486-524 | An admitted write leaves its file as the write left it and the others alone; only a restart of the log moves the base |
| QuotaAdmission.ShrinkFrees | internal/storage/physical_linux.go:589-611 | A shrinking truncate gives back exactly what lies behind the new end |
| QuotaAdmission.ShrinkRefusesNothing | internal/storage/physical_linux.go:589-611 | Giving space back never makes an operation on another file be refused that was admitted before |
| QuotaAdmission.RefusalAlarms | internal/storage/physical_linux.go:476-506 | A refused operation changes neither files nor base, and the alarm is pending |
| QuotaAdmission.NearlyFullWarns | internal/storage/physical_linux.go:512-530 | After an admitted operation that leaves the files within the limit: with nine tenths reserved the warning is pending, at the limit the alarm |
| QuotaAdmission.ProjectionWarns | internal/storage/physical_linux.go:469-512 | An operation projected to nine tenths warns ahead of the write, even if it then writes less or fails |
| QuotaAlerts.AlertMonitor.PollNext | internal/storage/physical_linux.go:698-739 | Takes up the due alert, once |
| QuotaAlerts.AlertMonitor.Finish | internal/storage/physical_linux.go:740-804 | A delivered alert is settled, another is retried later |
| QuotaAlerts.PendingNeverReset | internal/storage/physical_linux.go:433-468 | An alert that has risen stays until it is delivered, with its figure and in its episode |
| QuotaAlerts.OneRisePerEpisode | internal/storage/physical_linux.go:433-468 | Each threshold rises at most once in an episode |
| QuotaAlerts.BetweenEpisodes | internal/storage/physical_linux.go:433-468 | Between two episodes reserved usage fell below 85 percent of the limit |
| Alerting.HighWarns | internal/storage/physical_linux.go:433-468 | After an observation of nine tenths or more the warning is pending: as it was, or with this reading if it is new or an episode has just begun |
| Alerting.SpentAlarms | internal/storage/physical_linux.go:433-468 | After one at the limit, or denied, so is the alarm |
| Alerting.LowRaisesNothing | internal/storage/physical_linux.go:433-468 | Below those marks no alert rises; below 85 percent the monitor is armed again |
| Alerting.EpisodeBeginsIff | internal/storage/physical_linux.go:433-468 | An episode begins exactly at such an observation, if the monitor is armed and all alerts were sent |
| Alerting.DueIsTakenUp | internal/storage/physical_linux.go:698-739 | A poll takes up an alert exactly when one is due and no message is out, the warning before the alarm |
| Alerting.SentSettles | internal/storage/physical_linux.go:740-804 | A sent message settles its alert; a failed one is due again within the hour |
| Alerting.RetryDoubles | internal/storage/physical_linux.go:740-804 | The wait doubles with every attempt up to the hour |
| Alerting.HighIsSent | internal/storage/physical_linux.go:433-739 | From any valid state with no message out, and either no warning pending yet or a new episode to begin: usage of nine tenths is observed, and the next poll sends the warning with that figure |
| StateSlots.StateFile.Load | internal/storage/physical_linux.go:328-355 | Takes the newest slot that is whole |
| StateSlots.StateFile.Save | internal/storage/physical_linux.go:356-374 | Writes the other slot only, up to any cut |
| StateSlots.LoadsNewest | internal/storage/physical_linux.go:328-355 | A load finds a record exactly if a slot holds an intact one with a limit, and then one that no slot surpasses |
| StateSlots.FirstSave | internal/storage/physical_linux.go:199-216 | The first save of a new file makes it good; torn, it leaves a file that load refuses |
| StateSlots.SaveIsAtomic | internal/storage/physical_linux.go:356-374 | After a save torn at any byte, load gives the old state or the new one |
| StateSlots.CrashSafe | internal/storage/physical_linux.go:328-374 | After any sequence of such saves load gives a state, and each save left the last completed one or its own |
| QuotaCrash.SaveHolds | internal/storage/physical_linux.go:507-511 | Saving the base, cut anywhere, leaves the old base or the new one, and the checkpoint reserved under either |
| QuotaCrash.StepHolds | internal/storage/physical_linux.go:469-530 | Every piece of a guarded operation, whole or cut short, keeps a state file that loads and a reserved checkpoint |
| QuotaCrash.CheckpointSurvivesCrashes | internal/storage/physical_linux.go:328-374 | Wherever operations are interrupted, in the middle of a save or of a native write, the file loads and the checkpoint of the whole log is admitted |
| Ogg.OggPackets | internal/player/ogg.go:11-74 | The nested loops read the stream as the specification does: frames sent and reason to stop; what these are is stated by OggStreams and OggOutcomes |
| Ogg.TakeLacings | internal/player/ogg.go:40-72 | The lacing loop: one buffer grows across values and pages and is cut off at each packet end |
| Ogg.TakePage | internal/player/ogg.go:16-39 | One page: header checks in order, then its lacings |
| OggStreams.RoundTrip | internal/player/ogg.go:11-74 | Every legal pagination of packets that begin with OpusHead is read as exactly its audio packets, in order, with a clean end |
| OggStreams.CutStream | internal/player/ogg.go:16-48 | A stream cut anywhere sends a prefix of those, and ends cleanly if and only if the cut is at a page end that is also a packet end, after the header |
| OggStreams.CutSendsPrefix | internal/player/ogg.go:11-74 | Cutting any input at any byte never sends anything else |
| OggOutcomes.RefusedFrameStops | internal/player/ogg.go:64-70 | For every legal pagination and any answers of send, the frames sent are the audio packets up to and including the first that send refuses, and the reading fails with SendFailed exactly when there is one |
| OggOutcomes.FineStream | internal/player/ogg.go:11-74 | Legal pages of packets without trouble are read to the end: exactly the audio is sent, and the end is clean if and only if there was an identification header |
| OggOutcomes.TroubledStream | internal/player/ogg.go:40-72 | The first packet that is over 65536 bytes, empty, ahead of OpusHead, or refused by send ends the reading at once with its failure, after exactly the audio before it |
| OggOutcomes.BadPageStops | internal/player/ogg.go:16-39 | After legal pages a header that is cut short, lacks the capture pattern, has another version or a wrong continuation flag ends the reading with that failure |
| EditDistance.Sweep | internal/media/ranking.go:141-153 | The inner loop turns the row above into the next row of the table, in place |
| EditDistance.LastRow | internal/media/ranking.go:137-158 | The loop over one row array computes the least number of edits |
| EditDistance.TokenWeight | internal/media/ranking.go:122-160 | The weight with its early exits is the weight defined by edit scripts |
| EditDistance.RowIsDistance | internal/media/ranking.go:137-158 | Each cell of the recurrence is the least cost of any edit script |
| EditDistance.SixtyIffTwoEdits | internal/media/ranking.go:122-160 | For long tokens, neither within the other, the weight is 60 if and only if two edits suffice |
| EditDistance.WeightSymmetric | internal/media/ranking.go:122-160 | The weight is symmetric for all tokens |
| EditDistance.WeightMeans | internal/media/ranking.go:122-160 | Equal tokens weigh 100; of two tokens of five or more code points a beginning weighs 35, a part 10, and two others within two edits 60; each exactly then, and all else 0 |
| EditDistance.WeightRanks | internal/media/ranking.go:122-160 | Equal outranks near, near outranks prefix, prefix outranks containment |
| SearchCache.Cache.Get | internal/media/cache.go:27-40 | Serves an entry exactly while it has not expired |
| SearchCache.Cache.Put | internal/media/cache.go:50-80 | Purges, makes room by an entry that expires first, and stores with the shorter of the two lifetimes |
| SearchCache.Cache.JoinFlight | internal/media/cache.go:98-137 | A hit is served, a miss joins the running flight of its key or starts one |
| SearchCache.Cache.Land | internal/media/cache.go:120-134 | A flight publishes its success unless it was abandoned |
| SearchCache.Cache.LeaveFlight | internal/media/cache.go:138-148 | The last caller to leave abandons the flight |
| SearchCache.StepKeepsValid | internal/media/cache.go:98-162 | In every interleaving waiters are exactly the callers that joined and have not left, and the cache stays bounded and leased |
| SearchCache.SingleFlight | internal/media/cache.go:98-133 | A key has at most one running flight |
| SearchCache.AbandonedNeverPublishes | internal/media/cache.go:115-160 | A flight that its last caller left never reaches the cache, even if its search succeeds later |
| SearchCache.ProofsServedWithinLease | internal/media/cache.go:50-80 | At most 256 entries, and no video proof is served past its check plus the lease |
| CacheService.StoredIsServed | internal/media/cache.go:27-80 | A stored result is served exactly within ten minutes, a video proof also within ten minutes of its check |
| CacheService.StoringDropsExpired | internal/media/cache.go:50-62 | Storing drops what has expired and otherwise leaves other results as they are |
| CacheService.StoringEvictsOne | internal/media/cache.go:62-80 | A result that has not expired is lost to another only when 256 are there; then it is the only one, and none expires before it |
| CacheService.SuccessIsServed | internal/media/cache.go:120-134 | A flight that succeeds while somebody waits is served to the next lookup exactly within its lifetime |
| CacheService.FailureIsForgotten | internal/media/cache.go:120-134 | A flight that fails changes no entry, and its key may be searched again |
| CacheService.MissJoinsRunning | internal/media/cache.go:98-137 | A usable result is served without a flight; any other caller joins the running flight of its key or starts it |
| CacheService.LastLeaverAbandons | internal/media/cache.go:138-148 | The last caller to leave abandons the flight; while another waits it goes on |
| CacheService.InvalidatedIsGone | internal/media/cache.go:164-171 | Nothing is served for an invalidated key, and nothing else is lost |
| CacheService.LookupLosesNothing | internal/media/cache.go:27-40 | A lookup loses nothing that could be served |
| Discovery.SelectDiscovered | internal/media/discovery.go:60-167 | The strong confirmed match that nothing outranks is taken at once, unverified; otherwise the outcome is justified as below |
| Discovery.VerifyBest | internal/media/discovery.go:120-167 | Ends, verifies at most three and none that a confirmed candidate outranks. A selection is confirmed or was accepted in full, and no confirmed or accepted candidate outranks it, nor any left unasked within the budget. Without a selection nothing was confirmed or accepted and everything in the budget was asked; the error is that of the last useless answer. It is unavailable or canceled only if the last answer was that, or the context was canceled |
| Discovery.RankCandidates | internal/media/discovery.go:68-97 | Ranks exactly the admissible candidates, in order |
| QueueLayout.Layout.Add | internal/discord/queue.go:171-250 | A row is accepted exactly when it and its footer fit both budgets and, without a compact tail, a row with artwork has room for its section; it is placed as specified, and a refused row changes nothing |
| QueueLayout.BuildLayout | internal/discord/queue.go:132-272 | The reported component count is the rendered one and at most 40, the rendered text at most 4000 UTF-16 units; the message renders the current song and then contiguous positions from the start, in order, each with its section exactly if it has artwork and a component of its own, and counts those without artwork; with a compact tail it stops early only because the next row with its footer exceeds the text budget |
| QueueLayout.QueueUnits | internal/discord/queue.go:273-282 | Counts UTF-16 units |
| QueueLayout.CountersExact | internal/discord/queue.go:157-250 | The running counters are those of the rendered message after any rows |
| QueueLayout.AcceptsIffFits | internal/discord/queue.go:206-216 | With a compact tail a row is accepted if and only if the message with it fits the text budget |
| QueueLayout.RowsInOrder | internal/discord/queue.go:217-232 | Rows with a component of their own come first and then the compact text, in the order given |
| QueueLayout.SelectsAskedFor | internal/discord/queue.go:133-154 | A request is answered by exactly the positions it asks for, or refused for the first thing that is wrong with it |
| QueueLayout.MissingCounts | internal/discord/queue.go:232-243 | The missing figure counts the shown rows without artwork |

## Left out

- Discord, voice encryption, subprocesses, pipes, SQLite, its file-system shim and all logging: foreign behaviour. What they answer is a parameter.
- The grouping of the player's fields: voice fields, progress fields and the two modes are one record each in the class, the queue fields are single fields as in the source.
- Retry delays of the playback loop and of the voice recovery: the model may take a step earlier than the code would.
- GuildPlayers.GuildPlayer.SetPaused: the pause gate of the current track and the provider branch are not modelled, because the provider circuit of the player is not.
- The player's own provider circuit: `ProviderChanges` may block or unblock at any time. Its effects on commit, record and selection are modelled.
- Pause gates and the paused flag carried over an interruption; `Horizon.ResolutionHorizon` takes the flag as an argument.
- Search cancellation handles of a job and the consecutive failure count, which is only reported.
- The persistence retry worker, failed writes of snapshots and the two partial checkpoint stores: a write succeeds and holds the whole state. `Crashes` allows any further writes while the player is open.
- Display positions and totals of tracks, timing records, and the uncertain and metadata-skipped counters of a collection.
- The search for the first track of a collection is modelled in `Coordinators` only; waiting for its horizon and publishing its outcome to the command are not.
- Collections.PublishWindow: no provider block, cancellation or command falls within one window; `Coordinators` models windows with all of these in between, commit by commit.
- Progress.ProgressConserved: `Previous` starts a new playing of the interrupted song at the offset of its attempt, so audio confirmed since is repeated. The run is coordinated, which `Coordinators.ExecutionCoordinated` shows of every execution.
- Horizon.ResolutionHorizon: durations are unbounded integers, 64-bit overflow of sums is not modelled.
- Quota: files are represented by their rounded length; sparse and preallocated files, peak usage, a native write beyond the admitted end, and the geometry checks of the allocation are not modelled.
- StateSlots: encoding and checksum are any pair that decodes what it encodes, and a torn slot fails its checksum.
- Discovery: classification, scores and metadata matches are any functions.
- Ogg: the notification of the first completed packet, and read errors other than an early end.
- EditDistance: invalid UTF-8, which the code replaces by one rune per byte; tokens are sequences of code points.
- SearchCache: a result handed to callers that wait on a flight is not checked against the lease, only one served from the cache is.
- QueueLayout: escaping, clipping and artwork lookup; a row arrives with its text and a flag for artwork.
- Seek and timestamp parsing, state snapshots for display and start or skip notices: they change nothing modelled here.
