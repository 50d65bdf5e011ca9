/**
 Exactly which steps end a playing: everything else, above all every interruption, keeps it.
 */
module Retention {
  import opened Prelude
  import opened PlayerState
  import opened SlotIdentity
  import opened Progress
  import opened Endings

  /** The playing is current or waits ready in the queue. */
  ghost predicate Present(d: Deck, occ: nat) {
    (d.current.Some? && d.currentOcc == occ) || (exists e :: e in d.queue && e.occ == occ && !e.pending)
  }

  predicate Current(d: Deck, occ: nat) {
    d.current.Some? && d.currentOcc == occ
  }

  /** The playing is among the first n slots. */
  ghost predicate Among(q: Queue, n: nat, occ: nat)
    requires n <= |q|
  {
    exists e :: e in q[..n] && e.occ == occ
  }

  ghost predicate EditEnds(s: Player, e: Edit, occ: nat) {
    var d := s.deck;
    match e
    case RemoveAt(position) => Upcoming(d, position) && d.queue[position - 1].occ == occ
    case JumpTo(position) => Upcoming(d, position) && (Current(d, occ) || Among(d.queue, position - 1, occ))
    case SkipN(count) =>
      CanSkip(count) &&
      (Current(d, occ) || Among(d.queue, Min(if d.current.Some? then count - 1 else count, |d.queue|), occ))
    case ReplayCurrent => CanReplay(d) && Current(d, occ)
    case PlayPrevious => PreviousReply(s) == Done && Current(d, occ)
    case _ => false
  }

  predicate ControlEnds(d: Deck, c: Control, occ: nat) {
    match c
    case ClearQueue => !Current(d, occ)
    case StopPlayback => true
    case LeaveVoice => true
    case _ => false
  }

  /** A song ends when it completes, fails for good, or is interrupted past its middle; or at shutdown. */
  predicate PlayEnds(s: Player, p: Playing, occ: nat) {
    p.TrackEnds? && Current(s.deck, occ) && s.deck.attempt.Some? && (Live(s) ==> !Survives(s, p.ending))
  }

  ghost predicate Ends(s: Player, e: Event, occ: nat) {
    match e
    case E(edit) => EditEnds(s, edit, occ)
    case C(control) => ControlEnds(s.deck, control, occ)
    case P(playing) => PlayEnds(s, playing, occ)
    case _ => false
  }

  /** In a sound queue an occurrence is at one place. */
  lemma OnePlace(q: Queue, i: nat, occ: nat)
    requires i < |q| && q[i].occ == occ && Tally(q, Occ(occ)) <= 1
    ensures forall e | e in Without(q, i) :: e.occ != occ
  {
    TallyWithout(q, i, Occ(occ));
    TallyPositive(Without(q, i), Occ(occ));
    assert forall e | e in Without(q, i) :: !Occ(occ)(e);
  }

  /** Dropping the first n slots keeps the rest. */
  lemma DropKeeps(q: Queue, n: nat, occ: nat)
    requires n <= |q| && Tally(q, Occ(occ)) <= 1
    ensures Among(q, n, occ) ==> forall e | e in q[n..] :: e.occ != occ
    ensures forall e | e in q && e.occ == occ :: Among(q, n, occ) || e in q[n..]
  {
    assert q == q[..n] + q[n..];
    TallyAppend(q[..n], q[n..], Occ(occ));
    TallyPositive(q[..n], Occ(occ));
    TallyPositive(q[n..], Occ(occ));
    assert forall e :: Occ(occ)(e) <==> e.occ == occ;
  }

  lemma SoundPlaces(d: Deck, occ: nat)
    requires Sound(d) && Present(d, occ)
    ensures occ < d.nextOcc && Tally(d.queue, Occ(occ)) <= 1
    ensures Current(d, occ) ==> forall e | e in d.queue :: e.occ != occ
  {
    TallyPositive(d.queue, Occ(occ));
    assert forall e :: Occ(occ)(e) <==> e.occ == occ;
  }

  // ---------------------------------------------------------------------------
  // One kind of step at a time
  // ---------------------------------------------------------------------------

  lemma RemovedIff(d: Deck, position: int, occ: nat)
    requires Sound(d) && Present(d, occ) && Upcoming(d, position)
    ensures Present(Remove(d, position), occ) <==> d.queue[position - 1].occ != occ
  {
    var i := position - 1;
    SoundPlaces(d, occ);
    if d.queue[i].occ == occ {
      assert d.queue[i] in d.queue;
      OnePlace(d.queue, i, occ);
    } else {
      assert forall x | x in d.queue && x.occ == occ :: x in Without(d.queue, i);
      assert forall x | x in Without(d.queue, i) :: x in d.queue;
    }
  }

  lemma RemovalIff(s: Player, e: Edit, occ: nat)
    requires Sound(s.deck) && Present(s.deck, occ) && (e.RemoveAt? || e.JumpTo? || e.SkipN?)
    ensures Present(EditStep(s, e).deck, occ) <==> !EditEnds(s, e, occ)
  {
    var d := s.deck;
    match e
    case RemoveAt(position) =>
      if Upcoming(d, position) { RemovedIff(d, position, occ); }
    case JumpTo(position) =>
      if Upcoming(d, position) { DroppedIff(d, position - 1, occ); }
    case SkipN(count) =>
      if CanSkip(count) { DroppedIff(d, Min(if d.current.Some? then count - 1 else count, |d.queue|), occ); }
  }

  lemma DroppedIff(d: Deck, n: nat, occ: nat)
    requires Sound(d) && Present(d, occ) && n <= |d.queue|
    ensures Present(Drop(Quiet(d), n), occ) <==> !(Current(d, occ) || Among(d.queue, n, occ))
  {
    SoundPlaces(d, occ);
    DropKeeps(d.queue, n, occ);
    assert forall e | e in d.queue[n..] :: e in d.queue;
  }

  lemma ReorderIff(s: Player, e: Edit, occ: nat)
    requires Sound(s.deck) && Present(s.deck, occ) && (e.MoveTo? || e.ShuffleBy?)
    ensures Present(EditStep(s, e).deck, occ)
  {
    var d := s.deck;
    match e
    case MoveTo(from, to) =>
      if Upcoming(d, from) && Upcoming(d, to) {
        var q, i, j := d.queue, from - 1, to - 1;
        assert forall x | x in q :: x == q[i] || x in Without(q, i);
        assert Without(q, i) == Without(q, i)[..j] + Without(q, i)[j..];
      }
    case ShuffleBy(swaps) =>
      if CanShuffle(d, swaps) { SwappedFrom(d.queue, swaps); }
  }

  lemma AdditionIff(s: Player, e: Edit, occ: nat)
    requires Sound(s.deck) && Present(s.deck, occ)
    requires e.EnqueueMany? || e.BeginCollection? || e.ReplayCurrent? || e.PlayPrevious?
    ensures Present(EditStep(s, e).deck, occ) <==> !EditEnds(s, e, occ)
  {
    var d := s.deck;
    SoundPlaces(d, occ);
    var t := EditStep(s, e).deck;
    if t != d {
      assert forall x | x in d.queue :: x in t.queue;
      assert forall x | x in t.queue && x !in d.queue :: x.occ >= d.nextOcc;
    }
  }

  lemma EndedIff(d: Deck, occ: nat)
    requires Sound(d) && Present(d, occ)
    ensures Present(Ended(d), occ) <==> !Current(d, occ)
  {
    SoundPlaces(d, occ);
  }

  lemma RepeatedIff(d: Deck, t: Track, loop: Loop, occ: nat)
    requires Sound(d) && Present(d, occ)
    ensures Present(Repeated(d, t, loop), occ) <==> !Current(d, occ)
  {
    SoundPlaces(d, occ);
    var q := Repeated(d, t, loop).queue;
    assert forall x | x in d.queue :: x in q;
    assert forall x | x in q :: x in d.queue || x.occ == d.nextOcc;
  }

  lemma FinishIff(s: Player, ending: Ending, occ: nat)
    requires Sound(s.deck) && Present(s.deck, occ) && s.deck.attempt.Some?
    ensures Present(Finish(s, ending).deck, occ) <==> !PlayEnds(s, TrackEnds(ending), occ)
  {
    var d := s.deck;
    EndedIff(d, occ);
    if d.current.Some? {
      RepeatedIff(d, d.current.value, s.modes.loop, occ);
    }
  }

  lemma PlayIff(s: Player, p: Playing, occ: nat)
    requires Sound(s.deck) && Present(s.deck, occ)
    ensures Present(PlayStep(s, p).deck, occ) <==> !PlayEnds(s, p, occ)
  {
    if p.TrackEnds? && s.deck.attempt.Some? {
      FinishIff(s, p.ending, occ);
    } else if p.SelectHead? && CanSelect(s, p.permit) {
      assert forall x | x in s.deck.queue :: x == s.deck.queue[0] || x in s.deck.queue[1..];
    }
  }

  lemma ResolveKeepsPresent(s: Player, r: Resolving, occ: nat)
    requires Sound(s.deck) && Present(s.deck, occ) && Due(s, R(r))
    ensures Present(ResolveStep(s, r).deck, occ)
  {
    var d := s.deck;
    if !Current(d, occ) {
      var e :| e in d.queue && e.occ == occ && !e.pending;
      match r
      case CommitResult(job, result) => CommitKeepsReady(d, job, result, e);
      case JobEnds(job) => ResolvedKeeps(d.queue, job, e);
      case _ =>
    }
  }

  lemma CommitKeepsReady(d: Deck, job: nat, r: Result, e: Entry)
    requires e in d.queue && !e.pending
    requires var i := Find(d.queue, job, r.index); i < |d.queue| ==> d.queue[i].pending
    ensures e in Commit(d, job, r).queue
  {
    var i := Find(d.queue, job, r.index);
    var k :| 0 <= k < |d.queue| && d.queue[k] == e;
    if Running(d, job) && i < |d.queue| {
      if r.failed || r.skipped {
        assert Without(d.queue, i)[if k < i then k else k - 1] == e;
      } else {
        assert d.queue[i := Filled(d.queue[i], r.track)][k] == e;
      }
    }
  }

  // ---------------------------------------------------------------------------
  // Every step and every run
  // ---------------------------------------------------------------------------

  /** A playing survives a step if and only if the step is not one that ends it. */
  lemma EndsIff(s: Player, e: Event, occ: nat)
    requires Sound(s.deck) && Due(s, e) && Present(s.deck, occ)
    ensures Present(Step(s, e).deck, occ) <==> !Ends(s, e, occ)
  {
    match e
    case E(edit) =>
      if edit.RemoveAt? || edit.JumpTo? || edit.SkipN? {
        RemovalIff(s, edit, occ);
      } else if edit.MoveTo? || edit.ShuffleBy? {
        ReorderIff(s, edit, occ);
      } else {
        AdditionIff(s, edit, occ);
      }
    case P(playing) => PlayIff(s, playing, occ);
    case R(resolving) => ResolveKeepsPresent(s, resolving, occ);
    case _ =>
  }

  ghost predicate Lasting(states: seq<Player>, occ: nat, a: nat, b: nat) {
    a <= b < |states| && forall i | a <= i < b :: Present(states[i].deck, occ) ==> Present(states[i + 1].deck, occ)
  }

  lemma {:induction false} LastingStays(states: seq<Player>, occ: nat, a: nat, b: nat)
    requires Lasting(states, occ, a, b) && Present(states[a].deck, occ)
    ensures Present(states[b].deck, occ)
  {
    if a < b {
      LastingStays(states, occ, a, b - 1);
      assert Present(states[b - 1].deck, occ) ==> Present(states[b - 1 + 1].deck, occ);
    }
  }

  /** In every coordinated run a playing survives a step if and only if the step is not one that ends it. */
  lemma EndsExactly(states: seq<Player>, events: seq<Event>, occ: nat, n: nat)
    requires Coordinated(states, events) && Sound(states[0].deck) && n < |events| && Present(states[n].deck, occ)
    ensures Present(states[n + 1].deck, occ) <==> !Ends(states[n], events[n], occ)
  {
    CoordinatedIsDue(states, events);
    RunSound(states, events, n);
    SurvivesIff(states[n], events[n], states[n + 1], occ);
  }

  lemma SurvivesIff(s: Player, e: Event, t: Player, occ: nat)
    requires Sound(s.deck) && Due(s, e) && Present(s.deck, occ) && t == Step(s, e)
    ensures Present(t.deck, occ) <==> !Ends(s, e, occ)
  {
    EndsIff(s, e, occ);
  }

  /** A playing is there for as long as nothing ended it, whatever voice, provider and network did. */
  lemma StaysUntilEnded(states: seq<Player>, events: seq<Event>, occ: nat, a: nat, b: nat)
    requires Coordinated(states, events) && Sound(states[0].deck) && a <= b <= |events|
    requires Present(states[a].deck, occ) && forall i | a <= i < b :: !Ends(states[i], events[i], occ)
    ensures Present(states[b].deck, occ)
  {
    forall i | a <= i < b
      ensures Present(states[i].deck, occ) ==> Present(states[i + 1].deck, occ)
    {
      if Present(states[i].deck, occ) {
        EndsExactly(states, events, occ, i);
      }
    }
    LastingStays(states, occ, a, b);
  }
}
