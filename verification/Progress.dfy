/**
 What a run does with audio progress and with the voice retry budget.
 */
module Progress {
  import opened Prelude
  import opened PlayerState
  import opened SlotIdentity
  import opened Endings

  // ---------------------------------------------------------------------------
  // Progress of one playing
  // ---------------------------------------------------------------------------

  /** This playing has reached position p: it is the current one, or waits ready in the queue. */
  ghost predicate At(s: Player, occ: nat, p: nat) {
    || (s.deck.current.Some? && s.deck.currentOcc == occ && p == s.tape.confirmed)
    || (exists e :: e in s.deck.queue && e.occ == occ && !e.pending && e.track.offset == p)
  }

  ghost predicate ReadyOnly(q: Queue, occ: nat) {
    forall e | e in q && e.occ == occ :: !e.pending
  }

  lemma AtUnique(s: Player, occ: nat, p: nat, p': nat)
    requires Sound(s.deck) && At(s, occ, p) && At(s, occ, p')
    ensures p == p'
  {
    var q := s.deck.queue;
    TallyPositive(q, Occ(occ));
    assert Tally(q, Occ(occ)) + (if PlayingOcc(s.deck) == Some(occ) then 1 else 0) <= 1;
    if s.deck.current.Some? && s.deck.currentOcc == occ {
      assert forall e | e in q :: !Occ(occ)(e);
    } else if p != p' {
      var e :| e in q && e.occ == occ && !e.pending && e.track.offset == p;
      var f :| f in q && f.occ == occ && !f.pending && f.track.offset == p';
      TwoOf(q, e, f, Occ(occ));
    }
  }

  lemma TwoOf(q: Queue, e: Entry, f: Entry, p: Entry -> bool)
    requires e in q && f in q && e != f && p(e) && p(f)
    ensures Tally(q, p) >= 2
  {
    var i :| 0 <= i < |q| && q[i] == e;
    TallyWithout(q, i, p);
    var j :| 0 <= j < |q| && q[j] == f;
    assert f in Without(q, i) by {
      assert Without(q, i)[if j < i then j else j - 1] == f;
    }
    TallyPositive(Without(q, i), p);
  }

  /** The coordinator searches only for pending slots. */
  predicate Due(s: Player, e: Event) {
    e.R? && e.resolving.CommitResult? ==>
      var i := Find(s.deck.queue, e.resolving.job, e.resolving.result.index);
      i < |s.deck.queue| ==> s.deck.queue[i].pending
  }

  /** Where an entry of the next queue comes from. */
  ghost predicate Origin(s: Player, x: Entry) {
    || x in s.deck.queue
    || x.occ >= s.deck.nextOcc
    || (s.deck.current.Some? && x == Ready(Saved(s), s.deck.currentOcc))
    || (!x.pending && exists y :: y in s.deck.queue && y.pending && y.occ == x.occ)
  }

  ghost predicate Explained(s: Player, q: Queue) {
    forall x | x in q :: Origin(s, x)
  }

  lemma RemovalOrigin(s: Player, e: Edit, t: Player, x: Entry)
    requires t == EditStep(s, e) && x in t.deck.queue && (e.RemoveAt? || e.MoveTo? || e.JumpTo? || e.SkipN?)
    ensures x in s.deck.queue
  {
  }

  /** Edits add entries under new numbers only, pending or outside any collection. */
  lemma EditOrigin(s: Player, e: Edit, t: Player, x: Entry)
    requires t == EditStep(s, e) && x in t.deck.queue
    ensures x in s.deck.queue || (x.occ >= s.deck.nextOcc && (x.pending || x.job == 0))
  {
    match e
    case EnqueueMany(tracks, _) => assert x in s.deck.queue || x in Slots(tracks, false, 0, s.deck.nextOcc);
    case BeginCollection(tracks, _) =>
      assert x in s.deck.queue || x in Slots(tracks, true, s.deck.nextJob + 1, s.deck.nextOcc);
    case ShuffleBy(swaps) => if CanShuffle(s.deck, swaps) { SwappedFrom(s.deck.queue, swaps); }
    case ReplayCurrent =>
    case PlayPrevious =>
    case _ => RemovalOrigin(s, e, t, x);
  }

  lemma ExplainedEdit(s: Player, e: Edit)
    ensures Explained(s, EditStep(s, e).deck.queue)
  {
    var t := EditStep(s, e);
    forall x | x in t.deck.queue
      ensures Origin(s, x)
    {
      EditOrigin(s, e, t, x);
    }
  }

  lemma ExplainedFinish(s: Player, ending: Ending)
    requires Sound(s.deck) && s.deck.attempt.Some?
    ensures Explained(s, Finish(s, ending).deck.queue)
  {
  }

  lemma ExplainedEndJob(s: Player, job: nat)
    ensures Explained(s, EndJob(s.deck, job).queue)
  {
    forall x | x in PlayerState.Resolved(s.deck.queue, job)
      ensures x in s.deck.queue
    {
      ResolvedKeeps(s.deck.queue, job, x);
    }
  }

  lemma ExplainedStep(s: Player, e: Event)
    requires Sound(s.deck) && Due(s, e)
    ensures Explained(s, Step(s, e).deck.queue)
  {
    match e
    case E(edit) => ExplainedEdit(s, edit);
    case P(playing) =>
      if playing.TrackEnds? && s.deck.attempt.Some? {
        ExplainedFinish(s, playing.ending);
      }
    case R(resolving) => if resolving.JobEnds? { ExplainedEndJob(s, resolving.job); }
    case _ =>
  }

  /** Whether this step sends a frame of that playing. */
  predicate Sends(s: Player, e: Event, occ: nat) {
    e.P? && e.playing.FrameSent? && Listening(s, e.playing.sequence) && s.deck.currentOcc == occ
  }

  /** Edits move no audio, and any that touches the current song ends it. */
  lemma EditLeavesTape(s: Player, e: Edit)
    ensures var t := EditStep(s, e);
      && t.tape == s.tape.(history := t.tape.history)
      && (t.deck.current.Some? ==> t.deck.current == s.deck.current && t.deck.currentOcc == s.deck.currentOcc)
  {
  }

  lemma PlayMoves(s: Player, p: Playing, t: Player)
    requires Sound(s.deck) && s.deck.current.Some? && t == PlayStep(s, p) && t.deck.current.Some?
    ensures t.deck.currentOcc == s.deck.currentOcc && t.tape.sequence == s.tape.sequence
    ensures t.deck.current.value.offset == s.deck.current.value.offset
    ensures t.tape.confirmed == s.tape.confirmed + if Sends(s, P(p), s.deck.currentOcc) then FRAME else 0
  {
  }

  /** Nothing happens to the song and the tape, unless the song ends. */
  predicate Unmoved(s: Player, t: Player) {
    && t.tape == s.tape && t.deck.currentOcc == s.deck.currentOcc
    && (t.deck.current == s.deck.current || t.deck.current == None)
  }

  lemma ControlMoves(s: Player, c: Control)
    ensures Unmoved(s, ControlStep(s, c))
  {
  }

  lemma TransportMoves(s: Player, t: Transport)
    ensures Unmoved(s, TransportStep(s, t))
  {
  }

  lemma ResolveMoves(s: Player, r: Resolving)
    ensures Unmoved(s, ResolveStep(s, r))
  {
  }

  lemma OthersMoveNothing(s: Player, e: Event, t: Player)
    requires t == Step(s, e) && !e.E? && !e.P?
    ensures Unmoved(s, t)
  {
    match e
    case C(control) => ControlMoves(s, control);
    case T(transport) => TransportMoves(s, transport);
    case R(resolving) => ResolveMoves(s, resolving);
  }

  /** The current playing stays in its attempt, moved by the frame the step sends. */
  lemma CurrentMoves(s: Player, e: Event, t: Player)
    requires Sound(s.deck) && s.deck.current.Some? && t == Step(s, e) && t.deck.current.Some?
    ensures t.deck.currentOcc == s.deck.currentOcc && t.tape.sequence == s.tape.sequence
    ensures t.deck.current.value.offset == s.deck.current.value.offset
    ensures t.tape.confirmed == s.tape.confirmed + if Sends(s, e, s.deck.currentOcc) then FRAME else 0
  {
    match e
    case E(edit) => EditLeavesTape(s, edit);
    case P(playing) => PlayMoves(s, playing, t);
    case _ => OthersMoveNothing(s, e, t);
  }

  /** Attempts are numbered upwards, and one that has started stays started. */
  lemma TapeGrows(s: Player, e: Event, t: Player)
    requires t == Step(s, e)
    ensures s.tape.sequence <= t.tape.sequence
    ensures s.tape.sequence == t.tape.sequence && Started(s.tape) ==> Started(t.tape)
  {
    match e
    case E(edit) => EditLeavesTape(s, edit);
    case P(_) =>
    case _ => OthersMoveNothing(s, e, t);
  }

  /** A song becomes current from the head of the queue, in a new attempt that begins at its offset. */
  lemma Selected(s: Player, e: Event, t: Player)
    requires s.deck.current.None? && t == Step(s, e) && t.deck.current.Some?
    ensures var q := s.deck.queue;
      && q != [] && !q[0].pending && q[0].occ == t.deck.currentOcc
      && q[0].track.offset == t.deck.current.value.offset == t.tape.confirmed
      && t.tape.sequence == s.tape.sequence + 1
  {
    OnlySelectionStarts(s, e);
  }

  lemma NotQueued(d: Deck, e: Entry)
    requires Sound(d) && d.current.Some? && e in d.queue
    ensures e.occ != d.currentOcc
  {
    TallyPositive(d.queue, Occ(d.currentOcc));
    assert Occ(e.occ)(e);
  }

  /** A step moves a playing by the frame it sends, and otherwise not at all. */
  lemma StepProgress(s: Player, e: Event, occ: nat, p': nat)
    requires Sound(s.deck) && Due(s, e) && occ < s.deck.nextOcc && ReadyOnly(s.deck.queue, occ)
    requires At(Step(s, e), occ, p')
    ensures exists p: nat :: At(s, occ, p) && p' == p + if Sends(s, e, occ) then FRAME else 0
  {
    var t := Step(s, e);
    ExplainedStep(s, e);
    if t.deck.current.Some? && t.deck.currentOcc == occ && p' == t.tape.confirmed {
      if s.deck.current.Some? {
        CurrentMoves(s, e, t);
        assert At(s, occ, s.tape.confirmed);
      } else {
        Selected(s, e, t);
        assert s.deck.queue[0] in s.deck.queue;
        assert At(s, occ, p');
      }
    } else {
      var x :| x in t.deck.queue && x.occ == occ && !x.pending && x.track.offset == p';
      assert Origin(s, x);
      assert At(s, occ, p');
      if Sends(s, e, occ) {
        NotQueued(s.deck, x);
      }
    }
  }

  // ---------------------------------------------------------------------------
  // The coordinator's discipline
  // ---------------------------------------------------------------------------

  predicate CommitsTo(e: Event, job: nat, i: nat) {
    e.R? && e.resolving.CommitResult? && e.resolving.job == job && e.resolving.result.index == i
  }

  ghost predicate PendingSlot(q: Queue, job: nat, i: nat) {
    exists e :: e in q && AtSlot(e, job, i) && e.pending
  }

  ghost predicate PendingOnly(q: Queue, job: nat, i: nat) {
    forall e | e in q && AtSlot(e, job, i) :: e.pending
  }

  /** Every commit is for a slot that was pending when it was chosen, and no commit for that slot lies between. */
  ghost predicate Coordinated(states: seq<Player>, events: seq<Event>) {
    && Run(states, events)
    && forall b, job: nat, i: nat | 0 <= b < |events| && CommitsTo(events[b], job, i) ::
         exists a :: 0 <= a <= b && Chosen(states, events, job, i, a, b)
  }

  ghost predicate Chosen(states: seq<Player>, events: seq<Event>, job: nat, i: nat, a: nat, b: nat)
    requires a <= b <= |events| && |states| == |events| + 1
  {
    PendingSlot(states[a].deck.queue, job, i) && forall k | a <= k < b :: !CommitsTo(events[k], job, i)
  }

  lemma PendingAlone(d: Deck, job: nat, i: nat)
    requires Sound(d) && PendingSlot(d.queue, job, i)
    ensures 0 < job <= d.nextJob && PendingOnly(d.queue, job, i)
  {
    var e :| e in d.queue && AtSlot(e, job, i) && e.pending;
    forall f | f in d.queue && AtSlot(f, job, i)
      ensures f.pending
    {
      if f != e {
        assert Slot(job, i)(e) && Slot(job, i)(f);
        TwoOf(d.queue, e, f, Slot(job, i));
      }
    }
  }

  /** Entries are new to the queue only as pending slots, outside any collection, or by the commit for their slot. */
  ghost predicate Joins(s: Player, e: Event, x: Entry) {
    x in s.deck.queue || x.pending || x.job == 0 || CommitsTo(e, x.job, x.position)
  }

  lemma EditJoins(s: Player, e: Edit, x: Entry)
    requires x in EditStep(s, e).deck.queue
    ensures Joins(s, E(e), x)
  {
    EditOrigin(s, e, EditStep(s, e), x);
  }

  lemma ResolveJoins(s: Player, r: Resolving, x: Entry)
    requires x in ResolveStep(s, r).deck.queue
    ensures Joins(s, R(r), x)
  {
    match r
    case JobEnds(job) => ResolvedKeeps(s.deck.queue, job, x);
    case _ =>
  }

  lemma PlayJoins(s: Player, p: Playing, x: Entry)
    requires x in PlayStep(s, p).deck.queue
    ensures Joins(s, P(p), x)
  {
  }

  lemma StepJoins(s: Player, e: Event, x: Entry)
    requires x in Step(s, e).deck.queue
    ensures Joins(s, e, x)
  {
    match e
    case E(edit) => EditJoins(s, edit, x);
    case P(playing) => PlayJoins(s, playing, x);
    case R(resolving) => ResolveJoins(s, resolving, x);
    case _ =>
  }

  /** A pending slot stays pending or goes away until a commit for it. */
  lemma StaysPending(s: Player, e: Event, t: Player, job: nat, i: nat)
    requires t == Step(s, e) && job > 0 && PendingOnly(s.deck.queue, job, i) && !CommitsTo(e, job, i)
    ensures PendingOnly(t.deck.queue, job, i)
  {
    forall x | x in t.deck.queue && AtSlot(x, job, i)
      ensures x.pending
    {
      StepJoins(s, e, x);
    }
  }

  lemma {:induction false} ChosenStaysPending(states: seq<Player>, events: seq<Event>, job: nat, i: nat, a: nat, b: nat)
    requires Run(states, events) && Sound(states[0].deck) && a <= b <= |events| && Chosen(states, events, job, i, a, b)
    ensures PendingOnly(states[b].deck.queue, job, i)
  {
    RunSound(states, events, a);
    PendingAlone(states[a].deck, job, i);
    if a < b {
      ChosenStaysPending(states, events, job, i, a, b - 1);
      StaysPending(states[b - 1], events[b - 1], states[b], job, i);
    }
  }

  ghost predicate DueRun(states: seq<Player>, events: seq<Event>) {
    Run(states, events) && forall i | 0 <= i < |events| :: Due(states[i], events[i])
  }

  /** In a coordinated run every commit is due. */
  lemma CoordinatedIsDue(states: seq<Player>, events: seq<Event>)
    requires Coordinated(states, events) && Sound(states[0].deck)
    ensures DueRun(states, events)
  {
    forall b | 0 <= b < |events|
      ensures Due(states[b], events[b])
    {
      if events[b].R? && events[b].resolving.CommitResult? {
        var job, i := events[b].resolving.job, events[b].resolving.result.index;
        assert CommitsTo(events[b], job, i);
        var a :| 0 <= a <= b && Chosen(states, events, job, i, a, b);
        ChosenStaysPending(states, events, job, i, a, b);
      }
    }
  }

  // ---------------------------------------------------------------------------
  // Progress over whole runs
  // ---------------------------------------------------------------------------

  /** Frames of this playing that were confirmed between two points of the run. */
  function Frames(states: seq<Player>, events: seq<Event>, occ: nat, a: nat, b: nat): nat
    requires |states| == |events| + 1 && a <= b <= |events|
  {
    if a == b then 0
    else Frames(states, events, occ, a, b - 1) + if Sends(states[b - 1], events[b - 1], occ) then 1 else 0
  }

  lemma StaysIssued(s: Player, e: Event, t: Player, occ: nat)
    requires Sound(s.deck) && Due(s, e) && t == Step(s, e) && occ < s.deck.nextOcc && ReadyOnly(s.deck.queue, occ)
    ensures Sound(t.deck) && occ < t.deck.nextOcc && ReadyOnly(t.deck.queue, occ)
  {
    StepKeeps(s, e);
    ExplainedStep(s, e);
  }

  lemma {:induction false} IssuedStays(states: seq<Player>, events: seq<Event>, occ: nat, a: nat, b: nat)
    requires DueRun(states, events) && Sound(states[0].deck) && a <= b <= |events|
    requires occ < states[a].deck.nextOcc && ReadyOnly(states[a].deck.queue, occ)
    ensures Sound(states[b].deck) && occ < states[b].deck.nextOcc && ReadyOnly(states[b].deck.queue, occ)
  {
    if a == b {
      RunSound(states, events, b);
    } else {
      IssuedStays(states, events, occ, a, b - 1);
      StaysIssued(states[b - 1], events[b - 1], states[b], occ);
    }
  }

  /** Wherever the playing is after this step, it was before, short of the frame the step sent. */
  ghost predicate Moves(s: Player, e: Event, t: Player, occ: nat) {
    forall p': nat | At(t, occ, p') ::
      exists p: nat :: At(s, occ, p) && p' == p + if Sends(s, e, occ) then FRAME else 0
  }

  ghost predicate MovesRun(states: seq<Player>, events: seq<Event>, occ: nat, a: nat, b: nat) {
    && |states| == |events| + 1 && a <= b <= |events|
    && forall i | a <= i < b :: Moves(states[i], events[i], states[i + 1], occ)
  }

  lemma RunMoves(states: seq<Player>, events: seq<Event>, occ: nat, a: nat, b: nat)
    requires DueRun(states, events) && Sound(states[0].deck) && a <= b <= |events|
    requires occ < states[a].deck.nextOcc && ReadyOnly(states[a].deck.queue, occ)
    ensures MovesRun(states, events, occ, a, b)
  {
    forall i | a <= i < b
      ensures Moves(states[i], events[i], states[i + 1], occ)
    {
      IssuedStays(states, events, occ, a, i);
      StepMoves(states[i], events[i], states[i + 1], occ);
    }
  }

  lemma StepMoves(s: Player, e: Event, t: Player, occ: nat)
    requires Sound(s.deck) && Due(s, e) && occ < s.deck.nextOcc && ReadyOnly(s.deck.queue, occ) && t == Step(s, e)
    ensures Moves(s, e, t, occ)
  {
    forall p': nat | At(t, occ, p')
      ensures exists p: nat :: At(s, occ, p) && p' == p + if Sends(s, e, occ) then FRAME else 0
    {
      StepProgress(s, e, occ, p');
    }
  }

  lemma {:induction false} ProgressBack(states: seq<Player>, events: seq<Event>, occ: nat, a: nat, b: nat, p': nat)
    returns (p: nat)
    requires MovesRun(states, events, occ, a, b) && At(states[b], occ, p')
    ensures At(states[a], occ, p) && p' == p + FRAME * Frames(states, events, occ, a, b)
  {
    if a == b {
      p := p';
    } else {
      assert Moves(states[b - 1], events[b - 1], states[b], occ);
      var m: nat :| At(states[b - 1], occ, m) &&
        p' == m + if Sends(states[b - 1], events[b - 1], occ) then FRAME else 0;
      p := ProgressBack(states, events, occ, a, b - 1, m);
    }
  }

  lemma DueProgress(states: seq<Player>, events: seq<Event>, occ: nat, a: nat, b: nat, p: nat, p': nat)
    requires DueRun(states, events) && Sound(states[0].deck) && a <= b <= |events|
    requires At(states[a], occ, p) && At(states[b], occ, p')
    ensures p' == p + FRAME * Frames(states, events, occ, a, b)
  {
    RunSound(states, events, a);
    PresentIssued(states[a], occ, p);
    RunMoves(states, events, occ, a, b);
    var q := ProgressBack(states, events, occ, a, b, p');
    AtUnique(states[a], occ, p, q);
  }

  /** Between any two points a playing has moved by twenty milliseconds for each frame confirmed, never back. */
  lemma ProgressConserved(states: seq<Player>, events: seq<Event>, occ: nat, a: nat, b: nat, p: nat, p': nat)
    requires Coordinated(states, events) && Sound(states[0].deck) && a <= b <= |events|
    requires At(states[a], occ, p) && At(states[b], occ, p')
    ensures p' == p + FRAME * Frames(states, events, occ, a, b)
  {
    CoordinatedIsDue(states, events);
    DueProgress(states, events, occ, a, b, p, p');
  }

  lemma PresentIssued(s: Player, occ: nat, p: nat)
    requires Sound(s.deck) && At(s, occ, p)
    ensures occ < s.deck.nextOcc && ReadyOnly(s.deck.queue, occ)
  {
    var q := s.deck.queue;
    TallyPositive(q, Occ(occ));
    forall e | e in q && e.occ == occ
      ensures !e.pending
    {
      assert Occ(occ)(e);
      if s.deck.current.Some? && s.deck.currentOcc == occ {
        NotQueued(s.deck, e);
      } else {
        var f :| f in q && f.occ == occ && !f.pending && f.track.offset == p;
        if e != f {
          TwoOf(q, e, f, Occ(occ));
        }
      }
    }
    if !(s.deck.current.Some? && s.deck.currentOcc == occ) {
      var f :| f in q && f.occ == occ && !f.pending && f.track.offset == p;
      assert Occ(occ)(f);
    }
  }

  // ---------------------------------------------------------------------------
  // Checkpoints and starts
  // ---------------------------------------------------------------------------

  /** Less than five seconds of audio lie behind the last checkpoint; a song that started afresh is the last heard. */
  predicate Paced(s: Player) {
    && s.tape.checkpoint <= s.tape.confirmed < s.tape.checkpoint + CHECKPOINT
    && s.tape.startedSequence <= s.tape.sequence
    && |s.tape.history| <= MAX_HISTORY
    && (s.deck.current.Some? ==> s.deck.current.value.offset <= s.tape.checkpoint && s.tape.sequence > 0)
    && (s.deck.current.Some? && Started(s.tape) && s.deck.current.value.offset == 0 ==>
          s.tape.history != [] && s.tape.history[|s.tape.history| - 1] == s.deck.current.value)
  }

  lemma PlayPaced(s: Player, p: Playing)
    requires Paced(s) && (s.deck.current.Some? ==> s.deck.attempt.Some?)
    ensures Paced(PlayStep(s, p))
  {
    if p.TrackEnds? {
      assert PlayStep(s, p).tape == s.tape;
    }
  }

  lemma EditPaced(s: Player, e: Edit)
    requires Paced(s)
    ensures Paced(EditStep(s, e))
  {
    var t := EditStep(s, e);
    EditLeavesTape(s, e);
    if t.deck.current.Some? {
      assert !e.PlayPrevious? || t == s;
    }
  }

  lemma UnmovedPaced(s: Player, t: Player)
    requires Paced(s) && Unmoved(s, t)
    ensures Paced(t)
  {
  }

  lemma StepPaced(s: Player, e: Event)
    requires Paced(s) && Sound(s.deck)
    ensures Paced(Step(s, e))
  {
    match e
    case E(edit) => EditPaced(s, edit);
    case P(playing) => PlayPaced(s, playing);
    case _ =>
      OthersMoveNothing(s, e, Step(s, e));
      UnmovedPaced(s, Step(s, e));
  }

  lemma {:induction false} RunPaced(states: seq<Player>, events: seq<Event>, n: nat)
    requires Run(states, events) && Sound(states[0].deck) && Paced(states[0]) && n <= |events|
    ensures Sound(states[n].deck) && Paced(states[n])
  {
    RunSound(states, events, n);
    if n > 0 {
      RunPaced(states, events, n - 1);
      StepPaced(states[n - 1], events[n - 1]);
    }
  }

  // ---------------------------------------------------------------------------
  // The voice retry budget
  // ---------------------------------------------------------------------------

  predicate Budgeted(s: Player) {
    var v := s.voice;
    && v.attempts <= VOICE_ATTEMPTS && (!v.incident ==> v.attempts == 0)
    && (v.blocked ==> v.incident)
    && (v.blocked && s.deck.current.Some? && s.deck.attempt.Some? ==> s.deck.attempt.value.interrupted)
    && (v.recovering.Some? ==> v.recovering.value.epoch <= v.epoch)
    && (v.recovering.Some? && v.recovering.value.epoch == v.epoch ==> v.blocked && v.attached)
  }

  /** The only steps that renew the budget: attaching, resuming after exhaustion, a clean end, five seconds of audio. */
  predicate Renewal(s: Player, e: Event) {
    match e
    case T(t) => t.AttachVoice? && !s.closed && !s.voice.attached
    case C(c) => c.Pause? && Renews(s, c.paused)
    case P(p) =>
      || (p.FrameSent? && Listening(s, p.sequence) && Steady(s))
      || (p.TrackEnds? && p.ending.Eof? && Live(s) && !s.deck.attempt.value.interrupted)
    case _ => false
  }

  predicate CallsRecover(s: Player, e: Event) {
    e.T? && e.transport.CallRecover? && Calls(s)
  }

  predicate Counted(s: Player, e: Event, t: Player) {
    && Budgeted(t)
    && (!Renewal(s, e) ==> t.voice.attempts == s.voice.attempts + if CallsRecover(s, e) then 1 else 0)
  }

  lemma BudgetPlay(s: Player, p: Playing)
    requires Budgeted(s)
    ensures Counted(s, P(p), PlayStep(s, p))
  {
  }

  lemma BudgetEdit(s: Player, e: Edit)
    requires Budgeted(s)
    ensures Budgeted(EditStep(s, e)) && EditStep(s, e).voice == s.voice
  {
  }

  lemma BudgetTransport(s: Player, t: Transport)
    requires Budgeted(s)
    ensures Counted(s, T(t), TransportStep(s, t))
  {
  }

  lemma BudgetControl(s: Player, c: Control)
    requires Budgeted(s)
    ensures Counted(s, C(c), ControlStep(s, c))
  {
  }

  lemma BudgetResolve(s: Player, r: Resolving)
    requires Budgeted(s)
    ensures Budgeted(ResolveStep(s, r)) && ResolveStep(s, r).voice == s.voice
  {
  }

  lemma BudgetStep(s: Player, e: Event, t: Player)
    requires Budgeted(s) && t == Step(s, e)
    ensures Counted(s, e, t)
  {
    match e
    case E(edit) => BudgetEdit(s, edit);
    case C(control) => BudgetControl(s, control);
    case T(transport) => BudgetTransport(s, transport);
    case P(playing) => BudgetPlay(s, playing);
    case R(resolving) => BudgetResolve(s, resolving);
  }

  function CallCount(states: seq<Player>, events: seq<Event>, a: nat, b: nat): nat
    requires |states| == |events| + 1 && a <= b <= |events|
  {
    if a == b then 0
    else CallCount(states, events, a, b - 1) + if CallsRecover(states[b - 1], events[b - 1]) then 1 else 0
  }

  ghost predicate CountedRun(states: seq<Player>, events: seq<Event>, n: nat) {
    && |states| == |events| + 1 && n <= |events|
    && forall i | 0 <= i < n :: Counted(states[i], events[i], states[i + 1])
  }

  lemma {:induction false} BudgetRun(states: seq<Player>, events: seq<Event>, n: nat)
    requires Run(states, events) && Budgeted(states[0]) && n <= |events|
    ensures Budgeted(states[n])
  {
    if n > 0 {
      BudgetRun(states, events, n - 1);
      BudgetedNext(states, events, n - 1);
    }
  }

  lemma StaysBudgeted(s: Player, e: Event, t: Player)
    requires Budgeted(s) && t == Step(s, e)
    ensures Budgeted(t)
  {
    BudgetStep(s, e, t);
  }

  lemma BudgetedNext(states: seq<Player>, events: seq<Event>, i: nat)
    requires Run(states, events) && i < |events| && Budgeted(states[i])
    ensures Budgeted(states[i + 1])
  {
    StaysBudgeted(states[i], events[i], states[i + 1]);
  }

  lemma RunCounts(states: seq<Player>, events: seq<Event>, n: nat)
    requires Run(states, events) && Budgeted(states[0]) && n <= |events|
    ensures CountedRun(states, events, n)
  {
    forall i | 0 <= i < n
      ensures Counted(states[i], events[i], states[i + 1])
    {
      BudgetRun(states, events, i);
      BudgetStep(states[i], events[i], states[i + 1]);
    }
  }

  lemma {:induction false} CallsAdd(states: seq<Player>, events: seq<Event>, a: nat, b: nat)
    requires CountedRun(states, events, b) && a <= b
    requires forall i | a <= i < b :: !Renewal(states[i], events[i])
    ensures states[b].voice.attempts == states[a].voice.attempts + CallCount(states, events, a, b)
  {
    if a < b {
      CallsAdd(states, events, a, b - 1);
      assert Counted(states[b - 1], events[b - 1], states[b]);
    }
  }

  /** Between renewals the attempts count the recovery calls exactly, so there are at most five. */
  lemma CallsBounded(states: seq<Player>, events: seq<Event>, a: nat, b: nat)
    requires Run(states, events) && Budgeted(states[0]) && a <= b <= |events|
    requires forall i | a <= i < b :: !Renewal(states[i], events[i])
    ensures states[b].voice.attempts == states[a].voice.attempts + CallCount(states, events, a, b)
    ensures CallCount(states, events, a, b) <= VOICE_ATTEMPTS
  {
    RunCounts(states, events, b);
    BudgetRun(states, events, b);
    CallsAdd(states, events, a, b);
  }

  /** The song stays current in its attempt, moved by the frame the step sends. */
  predicate PlaysOn(s: Player, e: Event, t: Player) {
    && s.deck.current.Some? && t.deck.current.Some? && t.deck.currentOcc == s.deck.currentOcc
    && t.deck.current.value.offset == s.deck.current.value.offset
    && t.tape.confirmed == s.tape.confirmed + if Sends(s, e, s.deck.currentOcc) then FRAME else 0
  }

  ghost predicate PlayedOn(states: seq<Player>, events: seq<Event>, a: nat, b: nat) {
    && |states| == |events| + 1 && a <= b <= |events|
    && forall i | a <= i < b :: PlaysOn(states[i], events[i], states[i + 1])
  }

  /** From its selection on the song plays on, having begun at its offset. */
  lemma AttemptPlaysOn(states: seq<Player>, events: seq<Event>, a: nat, b: nat)
    requires Run(states, events) && Sound(states[0].deck) && a < b <= |events|
    requires states[a].deck.current.None? && forall i | a < i <= b :: states[i].deck.current.Some?
    ensures PlayedOn(states, events, a + 1, b)
    ensures states[a + 1].deck.current.value.offset == states[a + 1].tape.confirmed
  {
    Selected(states[a], events[a], states[a + 1]);
    forall i | a + 1 <= i < b
      ensures PlaysOn(states[i], events[i], states[i + 1])
    {
      RunSound(states, events, i);
      CurrentMoves(states[i], events[i], states[i + 1]);
    }
  }

  /** If the next frame completes five seconds, it is the 250th of the song since a. */
  predicate Earned(states: seq<Player>, events: seq<Event>, a: nat, b: nat)
    requires |states| == |events| + 1 && a <= b <= |events|
  {
    Steady(states[b]) ==> Frames(states, events, states[b].deck.currentOcc, a, b) + 1 >= CHECKPOINT / FRAME
  }

  /** A song confirms its first five seconds only after 250 frames of one attempt. */
  lemma SteadyTakesFrames(states: seq<Player>, events: seq<Event>, a: nat, b: nat)
    requires Run(states, events) && Sound(states[0].deck) && a < b <= |events|
    requires states[a].deck.current.None? && forall i | a < i <= b :: states[i].deck.current.Some?
    ensures Earned(states, events, a + 1, b)
  {
    AttemptPlaysOn(states, events, a, b);
    SteadyAfter(states, events, a + 1, b);
  }

  lemma SteadyAfter(states: seq<Player>, events: seq<Event>, a: nat, b: nat)
    requires PlayedOn(states, events, a, b) && states[a].deck.current.Some?
    requires states[a].deck.current.value.offset == states[a].tape.confirmed
    ensures Earned(states, events, a, b)
  {
    AttemptProgress(states, events, a, b);
  }

  lemma {:induction false} AttemptProgress(states: seq<Player>, events: seq<Event>, a: nat, b: nat)
    requires PlayedOn(states, events, a, b) && states[a].deck.current.Some?
    requires states[a].deck.current.value.offset == states[a].tape.confirmed
    ensures var s := states[b];
      && s.deck.current.Some? && s.deck.currentOcc == states[a].deck.currentOcc
      && s.deck.current.value.offset == states[a].tape.confirmed
      && s.tape.confirmed == states[a].tape.confirmed + FRAME * Frames(states, events, s.deck.currentOcc, a, b)
  {
    if a < b {
      AttemptProgress(states, events, a, b - 1);
      assert PlaysOn(states[b - 1], events[b - 1], states[b - 1 + 1]);
    }
  }

  // ---------------------------------------------------------------------------
  // Everything a step keeps
  // ---------------------------------------------------------------------------

  ghost predicate Good(s: Player) {
    Sound(s.deck) && Paced(s) && Budgeted(s)
  }

  lemma StepGood(s: Player, e: Event, t: Player)
    requires Good(s) && t == Step(s, e)
    ensures Good(t)
  {
    StepKeeps(s, e);
    StepPaced(s, e);
    StaysBudgeted(s, e, t);
  }
}
