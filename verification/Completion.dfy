/**
 When the coordinator of a collection finishes on its own, which of its songs are still unresolved, and so dropped.

 While the first playable song is sought, a commit that the blocked provider turns away is taken for done
 (internal/player/collection.go:277-279 and 389-402), so that its position is passed over.
 */
module Completion {
  import opened Prelude
  import opened PlayerState
  import opened SlotIdentity
  import opened Progress
  import opened Collections
  import opened Coordinators

  predicate Seeking(phase: Phase) {
    phase.Searching? || phase.Found?
  }

  /** The position that is being sought. */
  function Sought(phase: Phase): nat
    requires Seeking(phase)
  {
    if phase.Found? then phase.first.index else phase.at
  }

  /** The blocked provider turns the commit of the sought position away. */
  predicate TurnsAway(m: System, a: Action, job: nat) {
    && a.Work? && a.job == job && a.work.CommitNext? && m.player.providerBlocked
    && job in m.coordinators && m.coordinators[job].Found?
  }

  /** The positions of the job that were turned away so far. */
  function TurnedAway(systems: seq<System>, actions: seq<Action>, job: nat, n: nat): set<nat>
    requires |systems| == |actions| + 1 && n <= |actions|
  {
    if n == 0 then {}
    else
      var before := TurnedAway(systems, actions, job, n - 1);
      if TurnsAway(systems[n - 1], actions[n - 1], job) then before + {systems[n - 1].coordinators[job].first.index}
      else before
  }

  ghost predicate Present(q: Queue, job: nat, i: nat) {
    exists e :: e in q && AtSlot(e, job, i)
  }

  lemma PresentIff(q: Queue, job: nat, i: nat)
    ensures Present(q, job, i) <==> Tally(q, Slot(job, i)) > 0
  {
    TallyPositive(q, Slot(job, i));
    if Present(q, job, i) {
      var e :| e in q && AtSlot(e, job, i);
      assert Slot(job, i)(e);
    }
  }

  /** While the job seeks, none of its slots is filled, and one behind is gone unless it was turned away. */
  ghost predicate Seeks(q: Queue, job: nat, at: nat, total: nat, away: set<nat>) {
    && (forall i: nat :: PendingOnly(q, job, i))
    && (forall i: nat | (i < at || total <= i) && i !in away :: Tally(q, Slot(job, i)) == 0)
    && (forall i | i in away :: i < at)
  }

  ghost predicate Traced(m: System, job: nat, away: set<nat>) {
    && (job in m.coordinators ==> 0 < job <= m.player.deck.nextJob)
    && (m.player.deck.nextJob < job ==> away == {})
    && (job in m.coordinators && Seeking(m.coordinators[job]) ==>
          var phase := m.coordinators[job];
          Seeks(m.player.deck.queue, job, Sought(phase), phase.total, away))
  }

  /** Without a commit for the job it goes on seeking as before. */
  lemma SeeksOn(s: Player, e: Event, t: Player, job: nat, at: nat, total: nat, away: set<nat>)
    requires Sound(s.deck) && t == Step(s, e) && 0 < job <= s.deck.nextJob
    requires Seeks(s.deck.queue, job, at, total, away) && forall i: nat :: !CommitsTo(e, job, i)
    ensures Seeks(t.deck.queue, job, at, total, away)
  {
    StepKeeps(s, e);
    forall i: nat
      ensures PendingOnly(t.deck.queue, job, i)
    {
      StaysPending(s, e, t, job, i);
    }
  }

  /** A failed result takes its slot away; the search goes on behind it. */
  lemma SeeksPast(d: Deck, job: nat, r: Result, total: nat, away: set<nat>)
    requires Sound(d) && 0 < job <= d.nextJob && Running(d, job) && Fails(r)
    requires Seeks(d.queue, job, r.index, total, away)
    ensures Seeks(Commit(d, job, r).queue, job, r.index + 1, total, away)
  {
    var i := Find(d.queue, job, r.index);
    PresentIff(d.queue, job, r.index);
    if i < |d.queue| {
      forall k: nat
        ensures Tally(d.queue, Slot(job, k)) == Tally(Without(d.queue, i), Slot(job, k)) + if k == r.index then 1 else 0
      {
        TallyWithout(d.queue, i, Slot(job, k));
      }
      forall k: nat
        ensures PendingOnly(Without(d.queue, i), job, k)
      {
        assert PendingOnly(d.queue, job, k) && forall e | e in Without(d.queue, i) :: e in d.queue;
      }
    }
  }

  lemma BeginsSeeking(s: Player, e: Event, t: Player)
    requires Sound(s.deck) && Begins(s, e) && t == Step(s, e)
    ensures t.deck.nextJob == s.deck.nextJob + 1
    ensures Seeks(t.deck.queue, s.deck.nextJob + 1, 0, |e.edit.tracks|, {})
  {
    var job := s.deck.nextJob + 1;
    var slots := Slots(e.edit.tracks, true, job, s.deck.nextOcc);
    assert forall x | x in t.deck.queue :: x in s.deck.queue || x in slots;
    forall i: nat | |e.edit.tracks| <= i
      ensures Tally(t.deck.queue, Slot(job, i)) == 0
    {
      PresentIff(t.deck.queue, job, i);
    }
  }

  lemma OthersTrace(m: System, a: Action, m': System, job: nat, away: set<nat>)
    requires Sound(m.player.deck) && Enabled(m, a) && m' == SystemStep(m, a) && Traced(m, job, away)
    requires a.Work? ==> a.job != job
    ensures Traced(m', job, away)
  {
    var e := EventOf(m, a);
    StepKeeps(m.player, e);
    if a.Do? && Begins(m.player, e) && job == m.player.deck.nextJob + 1 {
      BeginsSeeking(m.player, e, m'.player);
    } else if job in m.coordinators && Seeking(m.coordinators[job]) {
      var phase := m.coordinators[job];
      SeeksOn(m.player, e, m'.player, job, Sought(phase), phase.total, away);
    }
  }

  /** The commit of the sought position ends the seeking, or moves it one on. */
  lemma CommitTraces(m: System, m': System, job: nat, away: set<nat>)
    requires Sound(m.player.deck) && Enabled(m, Action.Work(job, CommitNext))
    requires m' == SystemStep(m, Action.Work(job, CommitNext)) && Traced(m, job, away) && m.coordinators[job].Found?
    ensures var i := m.coordinators[job].first.index;
      Traced(m', job, if m.player.providerBlocked then away + {i} else away)
  {
    var s, phase := m.player, m.coordinators[job];
    if !s.providerBlocked && Running(s.deck, job) && Fails(phase.first) {
      SeeksPast(s.deck, job, phase.first, phase.total, away);
    }
  }

  lemma WorkTraces(m: System, w: Work, m': System, job: nat, away: set<nat>)
    requires Sound(m.player.deck) && Enabled(m, Action.Work(job, w)) && m' == SystemStep(m, Action.Work(job, w))
    requires Traced(m, job, away)
    ensures var turned := TurnsAway(m, Action.Work(job, w), job);
      Traced(m', job, if turned then away + {m.coordinators[job].first.index} else away)
  {
    var s, phase := m.player, m.coordinators[job];
    StepKeeps(s, EventOf(m, Action.Work(job, w)));
    match w
    case FindFirst(result) => SeeksOn(s, R(RecordResult(job, result)), m'.player, job, phase.at, phase.total, away);
    case CommitNext => if phase.Found? { CommitTraces(m, m', job, away); }
    case _ =>
  }

  lemma {:induction false} ExecutionTraced(systems: seq<System>, actions: seq<Action>, job: nat, n: nat)
    requires Execution(systems, actions) && Sound(systems[0].player.deck) && n <= |actions|
    ensures Sound(systems[n].player.deck) && Traced(systems[n], job, TurnedAway(systems, actions, job, n))
  {
    if n > 0 {
      ExecutionTraced(systems, actions, job, n - 1);
      StepKeeps(systems[n - 1].player, EventOf(systems[n - 1], actions[n - 1]));
      var before := TurnedAway(systems, actions, job, n - 1);
      match actions[n - 1]
      case Do(_) => OthersTrace(systems[n - 1], actions[n - 1], systems[n], job, before);
      case Work(worker, w) =>
        if worker == job {
          WorkTraces(systems[n - 1], w, systems[n], job, before);
        } else {
          OthersTrace(systems[n - 1], actions[n - 1], systems[n], job, before);
        }
    }
  }

  /** The coordinator comes to its end although its job was not cancelled. */
  predicate Finishes(m: System, a: Action, job: nat) {
    && a.Work? && a.job == job && !a.work.Quit? && Enabled(m, a) && Running(m.player.deck, job)
    && !m.coordinators[job].Over? && WorkStep(m.player, job, m.coordinators[job], a.work).Over?
  }

  lemma {:induction false} NonePending(q: Queue, job: nat, i: nat)
    requires PendingOf(q, job) == 0
    ensures !PendingSlot(q, job, i)
  {
    if q != [] {
      NonePending(q[..|q| - 1], job, i);
    }
  }

  /** A playable result fills the slot of its position, and no other slot of the job changes. */
  lemma FillingResolves(d: Deck, job: nat, r: Result, i: nat)
    requires Sound(d) && 0 < job && Running(d, job) && !Fails(r) && PendingOnly(d.queue, job, i)
    ensures var q := Commit(d, job, r).queue;
      && (Present(q, job, i) <==> Present(d.queue, job, i))
      && (PendingSlot(q, job, i) <==> Present(d.queue, job, i) && i != r.index)
  {
    var q, k := Commit(d, job, r).queue, Find(d.queue, job, r.index);
    if k < |d.queue| {
      OnlySlot(d.queue, k, job, r.index);
      FilledSlots(d.queue, k, Filled(d.queue[k], r.track), job, i);
    }
  }

  lemma FilledSlots(q: Queue, k: nat, e: Entry, job: nat, i: nat)
    requires k < |q| && e.job == q[k].job == job && e.position == q[k].position && !e.pending
    requires PendingOnly(q, job, i) && forall x | x in Without(q, k) :: !AtSlot(x, job, e.position)
    ensures Present(q[k := e], job, i) <==> Present(q, job, i)
    ensures PendingSlot(q[k := e], job, i) <==> Present(q, job, i) && i != e.position
  {
    Around(q, k, e);
    Around(q, k, q[k]);
    forall x
      ensures x in q[k := e] <==> x == e || x in Without(q, k)
      ensures x in q <==> x == q[k] || x in Without(q, k)
    {
      InAround(q[..k], e, q[k + 1..], x);
      InAround(q[..k], q[k], q[k + 1..], x);
    }
    assert e in q[k := e] && q[k] in q;
  }

  lemma InAround(a: Queue, e: Entry, b: Queue, x: Entry)
    ensures x in a + [e] + b <==> x == e || x in a + [] + b
  {
  }

  /** The last position was sought and its result is playable: what is left is what was turned away. */
  lemma LastCommitLeaves(d: Deck, job: nat, r: Result, blocked: bool, away: set<nat>, i: nat)
    requires Sound(d) && 0 < job && Running(d, job) && !Fails(r) && Seeks(d.queue, job, r.index, r.index + 1, away)
    ensures var q := (if blocked then d else Commit(d, job, r)).queue;
      PendingSlot(q, job, i) <==> i in (if blocked then away + {r.index} else away) && Present(q, job, i)
  {
    assert PendingOnly(d.queue, job, i);
    PresentIff(d.queue, job, i);
    if !blocked {
      FillingResolves(d, job, r, i);
    }
  }

  lemma FinishingLeaves(m: System, a: Action, m': System, job: nat, away: set<nat>, i: nat)
    requires Sound(m.player.deck) && Finishes(m, a, job) && m' == SystemStep(m, a) && Traced(m, job, away)
    ensures var left := if TurnsAway(m, a, job) then away + {m.coordinators[job].first.index} else away;
      PendingSlot(m'.player.deck.queue, job, i) <==>
        Seeking(m.coordinators[job]) && i in left && Present(m'.player.deck.queue, job, i)
  {
    var q := m'.player.deck.queue;
    PresentIff(q, job, i);
    match a.work
    case Choose(_) => NonePending(q, job, i);
    case CommitNext =>
      LastCommitLeaves(m.player.deck, job, m.coordinators[job].first, m.player.providerBlocked, away, i);
    case Finish => assert PendingOnly(q, job, i);
    case _ =>
  }

  /**
   A coordinator that finishes on its own leaves a position unresolved exactly if it was still seeking a first song, the
   blocked provider had turned that position's commit away, and nobody removed its slot.
   */
  lemma UnresolvedIff(systems: seq<System>, actions: seq<Action>, job: nat, n: nat, i: nat)
    requires Execution(systems, actions) && Sound(systems[0].player.deck) && n < |actions|
    requires Finishes(systems[n], actions[n], job)
    ensures PendingSlot(systems[n + 1].player.deck.queue, job, i) <==>
      && Seeking(systems[n].coordinators[job]) && i in TurnedAway(systems, actions, job, n + 1)
      && Present(systems[n + 1].player.deck.queue, job, i)
  {
    ExecutionTraced(systems, actions, job, n);
    FinishingLeaves(systems[n], actions[n], systems[n + 1], job, TurnedAway(systems, actions, job, n), i);
  }

  /** If none of its commits was turned away while seeking, a coordinator that finishes leaves every song resolved. */
  lemma AllResolved(systems: seq<System>, actions: seq<Action>, job: nat, n: nat)
    requires Execution(systems, actions) && Sound(systems[0].player.deck) && n < |actions|
    requires Finishes(systems[n], actions[n], job) && TurnedAway(systems, actions, job, n + 1) == {}
    ensures forall e | e in systems[n + 1].player.deck.queue && e.job == job :: !e.pending
  {
    forall e | e in systems[n + 1].player.deck.queue && e.job == job
      ensures !e.pending
    {
      UnresolvedIff(systems, actions, job, n, e.position);
      assert AtSlot(e, job, e.position);
    }
  }

  lemma Acts(systems: seq<System>, actions: seq<Action>, a: Action) returns (more: seq<System>, actions': seq<Action>)
    requires Execution(systems, actions) && Enabled(systems[|actions|], a)
    ensures more == systems + [SystemStep(systems[|actions|], a)] && actions' == actions + [a]
    ensures Execution(more, actions')
  {
    more, actions' := systems + [SystemStep(systems[|actions|], a)], actions + [a];
  }

  /** A collection of one song is reserved, and nothing else is there. */
  predicate Reserved(m: System, song: Track, phase: Phase) {
    && m.player.deck.queue == [Entry(song, true, 1, 0, 0)] && m.player.deck.current == None
    && Running(m.player.deck, 1) && m.player.deck.jobs[1].wanted == [true] && m.coordinators == map[1 := phase]
  }

  lemma ReservesOne(song: Track) returns (systems: seq<System>, actions: seq<Action>)
    ensures Execution(systems, actions) && |actions| == 2 && Sound(systems[0].player.deck)
    ensures Reserved(systems[2], song, Searching(0, 1)) && systems[2].player.deck.jobs[1].recorded == [false]
    ensures !systems[2].player.providerBlocked && actions[0].Do? && actions[1].Do?
    ensures systems[2].player.deck.jobs[1].resolved == 0
  {
    systems, actions := [System(Fresh([], [], Off), map[])], [];
    systems, actions := Acts(systems, actions, Do(T(AttachVoice)));
    systems, actions := Acts(systems, actions, Do(E(BeginCollection([song], 1))));
    assert systems[2].player.deck.queue == [Entry(song, true, 1, 0, 0)];
  }

  lemma FindsOne(m: System, song: Track, result: Result)
    requires Reserved(m, song, Searching(0, 1)) && m.player.deck.jobs[1].recorded == [false]
    requires !m.player.providerBlocked && result == Result(0, result.track, false, false)
    ensures var a := Action.Work(1, FindFirst(result));
      && Enabled(m, a) && Reserved(SystemStep(m, a), song, Found(result, 1))
      && SystemStep(m, a).player.deck.jobs[1].resolved == m.player.deck.jobs[1].resolved + 1
  {
  }

  lemma ResolvedOne(e: Entry, job: nat)
    requires e.job == job && e.pending
    ensures Resolved([e], job) == []
  {
    assert [e][..0] == [];
  }

  lemma DropsOne(m: System, song: Track, result: Result, m': System)
    requires Reserved(m, song, Found(result, 1)) && result.index == 0 && !Fails(result)
    requires m' == System(m.player.(providerBlocked := true), m.coordinators)
    ensures m' == SystemStep(m, Do(R(ProviderChanges(true))))
    ensures Enabled(m', Action.Work(1, CommitNext)) && TurnsAway(m', Action.Work(1, CommitNext), 1)
    ensures Finishes(m', Action.Work(1, CommitNext), 1)
    ensures var over := SystemStep(m', Action.Work(1, CommitNext));
      && over.player == m'.player && Enabled(over, Action.Work(1, End))
      && SystemStep(over, Action.Work(1, End)).player.deck.queue == []
      && SystemStep(over, Action.Work(1, End)).player.deck.current == None
  {
    ResolvedOne(m.player.deck.queue[0], 1);
    assert m.player.deck.queue == [m.player.deck.queue[0]];
  }

  /**
   The last song of a collection is found, and counted as resolved; then the provider is blocked by another search,
   the commit is turned away, and the coordinator finishes and drops the song that it found.
   */
  lemma FoundSongDropped(song: Track, found: Track) returns (systems: seq<System>, actions: seq<Action>)
    ensures Execution(systems, actions) && |actions| == 6 && Sound(systems[0].player.deck)
    ensures Finishes(systems[4], actions[4], 1) && TurnedAway(systems, actions, 1, 5) == {0}
    ensures 1 in systems[5].player.deck.jobs && systems[5].player.deck.jobs[1].resolved == 1
    ensures systems[6].player.deck.queue == [] && systems[6].player.deck.current == None
  {
    var result := Result(0, found, false, false);
    systems, actions := ReservesOne(song);
    FindsOne(systems[2], song, result);
    systems, actions := Acts(systems, actions, Action.Work(1, FindFirst(result)));
    var m := systems[3];
    DropsOne(m, song, result, System(m.player.(providerBlocked := true), m.coordinators));
    systems, actions := Acts(systems, actions, Do(R(ProviderChanges(true))));
    systems, actions := Acts(systems, actions, Action.Work(1, CommitNext));
    systems, actions := Acts(systems, actions, Action.Work(1, End));
    OnlyLastTurned(systems, actions);
  }

  lemma OnlyLastTurned(systems: seq<System>, actions: seq<Action>)
    requires |systems| == |actions| + 1 && |actions| == 6
    requires actions[0].Do? && actions[1].Do? && actions[2].Work? && actions[2].work.FindFirst? && actions[3].Do?
    requires TurnsAway(systems[4], actions[4], 1) && systems[4].coordinators[1].first.index == 0
    ensures TurnedAway(systems, actions, 1, 5) == {0}
  {
    assert TurnedAway(systems, actions, 1, 1) == {};
    assert TurnedAway(systems, actions, 1, 2) == {};
    assert TurnedAway(systems, actions, 1, 3) == {};
    assert TurnedAway(systems, actions, 1, 4) == {};
  }
}
