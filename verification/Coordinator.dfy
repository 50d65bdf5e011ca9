/**
 The coordinators of all registered collections, interleaved with everything else that happens to the player.
 A collection is searched position by position until a first song is found, and then window by window.
 */
module Coordinators {
  import opened Prelude
  import opened PlayerState
  import opened SlotIdentity
  import opened Progress
  import opened Collections
  import HistoryCount
  import Retention

  // ---------------------------------------------------------------------------
  // One coordinator
  // ---------------------------------------------------------------------------

  /** A window: what is published, what is still searched, what is buffered, and whether buffered results are due. */
  datatype Batch = Batch(indexes: seq<nat>, frontier: nat, waiting: set<nat>, buffered: Results, draining: bool)

  datatype Phase =
    | Searching(at: nat, total: nat)
    | Found(first: Result, total: nat)
    | Choosing
    | Publishing(batch: Batch)
    | Over

  /** What the coordinator of one job does next; `reach` holds wanted positions within the horizon. */
  datatype Work =
    | FindFirst(result: Result)
    | CommitNext
    | Choose(reach: set<nat>)
    | Arrive(result: Result)
    | Block(position: nat)
    | Rest
    | Finish
    | Quit
    | End

  /** The next buffered result of the window, if it is there. */
  function NextReady(b: Batch): Option<Result> {
    if b.frontier < |b.indexes| && b.indexes[b.frontier] in b.buffered then Some(b.buffered[b.indexes[b.frontier]])
    else None
  }

  predicate Reaches(d: Deck, job: nat, reach: set<nat>) {
    job in d.jobs && forall i | i in reach :: i < |d.jobs[job].wanted| && d.jobs[job].wanted[i]
  }

  predicate CanWork(s: Player, job: nat, phase: Phase, w: Work) {
    match w
    case FindFirst(result) => phase.Searching? && result.index == phase.at < phase.total
    case CommitNext => phase.Found? || (phase.Publishing? && phase.batch.draining && NextReady(phase.batch).Some?)
    case Choose(reach) => phase.Choosing? && Reaches(s.deck, job, reach)
    case Arrive(result) => phase.Publishing? && !phase.batch.draining && result.index in phase.batch.waiting
    case Block(position) => phase.Publishing? && !phase.batch.draining && position in phase.batch.waiting
    case Rest => phase.Publishing? && phase.batch.draining && (s.providerBlocked || NextReady(phase.batch) == None)
    case Finish =>
      || (phase.Searching? && phase.at == phase.total)
      || (phase.Publishing? && !phase.batch.draining && phase.batch.waiting == {})
    case Quit => !phase.Over? && !Running(s.deck, job)
    case End => phase.Over?
  }

  /** The result that is committed next. */
  function Next(phase: Phase): Result
    requires phase.Found? || (phase.Publishing? && NextReady(phase.batch).Some?)
  {
    if phase.Found? then phase.first else NextReady(phase.batch).value
  }

  /** A critical section that only looks leaves the player as it is. */
  function Look(s: Player): Event {
    R(ProviderChanges(s.providerBlocked))
  }

  function WorkEvent(s: Player, job: nat, phase: Phase, w: Work): Event
    requires CanWork(s, job, phase, w)
  {
    match w
    case FindFirst(result) => R(RecordResult(job, result))
    case Arrive(result) => R(RecordResult(job, result))
    case CommitNext => R(CommitResult(job, Next(phase)))
    case End => R(JobEnds(job))
    case _ => Look(s)
  }

  /** After a commit that told the coordinator to go on. */
  function Committed(phase: Phase): Phase
    requires phase.Found? || phase.Publishing?
  {
    match phase
    case Found(first, total) =>
      if Fails(first) then Searching(first.index + 1, total) else if first.index + 1 == total then Over else Choosing
    case Publishing(b) => Publishing(b.(frontier := b.frontier + 1))
  }

  function AfterChoice(q: Queue, job: nat, reach: set<nat>): Phase {
    var indexes := Window(q, job, reach);
    if PendingOf(q, job) == 0 then Over
    else if indexes == [] then Choosing
    else Publishing(Batch(indexes, 0, set i | i in indexes, map[], false))
  }

  function WorkStep(s: Player, job: nat, phase: Phase, w: Work): Phase
    requires CanWork(s, job, phase, w)
  {
    match w
    case FindFirst(result) => Found(result, phase.total)
    case CommitNext => if s.providerBlocked || Running(s.deck, job) then Committed(phase) else Over
    case Choose(reach) => AfterChoice(s.deck.queue, job, reach)
    case Arrive(result) =>
      var b := phase.batch;
      Publishing(b.(waiting := b.waiting - {result.index}, buffered := b.buffered[result.index := result],
                    draining := true))
    case Block(position) => Publishing(phase.batch.(waiting := phase.batch.waiting - {position}))
    case Rest => Publishing(phase.batch.(draining := false))
    case Finish => if phase.Searching? then Over else Choosing
    case _ => Over
  }

  // ---------------------------------------------------------------------------
  // The player with all its coordinators
  // ---------------------------------------------------------------------------

  datatype System = System(player: Player, coordinators: map<nat, Phase>)

  /** Something else happens, or the coordinator of a job works. */
  datatype Action = Do(event: Event) | Work(job: nat, work: Work)

  /** Only coordinators record, commit and end jobs. */
  predicate Enabled(m: System, a: Action) {
    match a
    case Do(e) => e.R? ==> e.resolving.ProviderChanges? || e.resolving.JobCancelled?
    case Work(job, w) => job in m.coordinators && CanWork(m.player, job, m.coordinators[job], w)
  }

  function EventOf(m: System, a: Action): Event
    requires Enabled(m, a)
  {
    match a
    case Do(e) => e
    case Work(job, w) => WorkEvent(m.player, job, m.coordinators[job], w)
  }

  predicate Begins(s: Player, e: Event) {
    e.E? && e.edit.BeginCollection? && CanBegin(s, e.edit.tracks, e.edit.ticket)
  }

  /** An accepted collection starts its coordinator; a job that ends has none any more. */
  function CoordinatorsAfter(m: System, a: Action): map<nat, Phase>
    requires Enabled(m, a)
  {
    match a
    case Do(e) =>
      if Begins(m.player, e) then m.coordinators[m.player.deck.nextJob + 1 := Searching(0, |e.edit.tracks|)]
      else m.coordinators
    case Work(job, w) =>
      if w.End? then m.coordinators - {job}
      else m.coordinators[job := WorkStep(m.player, job, m.coordinators[job], w)]
  }

  function SystemStep(m: System, a: Action): System
    requires Enabled(m, a)
  {
    System(Step(m.player, EventOf(m, a)), CoordinatorsAfter(m, a))
  }

  /** From a player without coordinators, anything that is enabled happens in any order. */
  ghost predicate Execution(systems: seq<System>, actions: seq<Action>) {
    && |systems| == |actions| + 1 && systems[0].coordinators == map[]
    && forall n | 0 <= n < |actions| ::
         Enabled(systems[n], actions[n]) && systems[n + 1] == SystemStep(systems[n], actions[n])
  }

  function Players(systems: seq<System>): (states: seq<Player>)
    ensures |states| == |systems| && forall n | 0 <= n < |systems| :: states[n] == systems[n].player
  {
    seq(|systems|, n requires 0 <= n < |systems| => systems[n].player)
  }

  ghost function Events(systems: seq<System>, actions: seq<Action>): (events: seq<Event>)
    requires Execution(systems, actions)
    ensures |events| == |actions| && forall n | 0 <= n < |actions| :: events[n] == EventOf(systems[n], actions[n])
  {
    seq(|actions|, n requires 0 <= n < |actions| => EventOf(systems[n], actions[n]))
  }

  // ---------------------------------------------------------------------------
  // What a coordinator may still commit
  // ---------------------------------------------------------------------------

  predicate Ahead(phase: Phase, i: nat) {
    match phase
    case Searching(at, total) => at <= i < total
    case Found(first, total) => first.index <= i < total
    case Publishing(b) => b.frontier <= |b.indexes| && i in b.indexes[b.frontier..]
    case _ => false
  }

  /** Results are where they belong, and no position is chosen twice. */
  ghost predicate Proper(phase: Phase) {
    match phase
    case Found(first, total) => first.index < total
    case Publishing(b) =>
      b.frontier <= |b.indexes| && Distinct(b.indexes) && forall i | i in b.buffered :: b.buffered[i].index == i
    case _ => true
  }

  ghost predicate AllProper(m: System) {
    forall job | job in m.coordinators :: job > 0 && Proper(m.coordinators[job])
  }

  lemma ChosenIsProper(d: Deck, job: nat, reach: set<nat>)
    requires Sound(d) && job > 0
    ensures Proper(AfterChoice(d.queue, job, reach))
  {
    WindowSlots(d.queue, job, reach);
  }

  lemma WorkIsProper(s: Player, job: nat, phase: Phase, w: Work)
    requires Sound(s.deck) && job > 0 && Proper(phase) && CanWork(s, job, phase, w)
    ensures Proper(WorkStep(s, job, phase, w))
  {
    if w.Choose? {
      ChosenIsProper(s.deck, job, w.reach);
    }
  }

  lemma StepIsProper(m: System, a: Action)
    requires Sound(m.player.deck) && AllProper(m) && Enabled(m, a)
    ensures AllProper(SystemStep(m, a))
  {
    if a.Work? {
      WorkIsProper(m.player, a.job, m.coordinators[a.job], a.work);
    }
  }

  /** Work commits only a position that was ahead, which is then behind; and adds only pending ones of a window. */
  lemma WorkAhead(s: Player, job: nat, phase: Phase, w: Work, i: nat)
    requires Proper(phase) && CanWork(s, job, phase, w) && Ahead(WorkStep(s, job, phase, w), i)
    ensures !CommitsTo(WorkEvent(s, job, phase, w), job, i)
    ensures Ahead(phase, i) || (w.Choose? && PendingSlot(s.deck.queue, job, i))
  {
    match w
    case Choose(reach) => WindowIsPending(s.deck.queue, job, reach, i);
    case CommitNext =>
      if phase.Publishing? {
        var b := phase.batch;
        assert i in b.indexes[b.frontier + 1..];
        assert i in b.indexes[b.frontier..];
      }
    case _ =>
  }

  // ---------------------------------------------------------------------------
  // Every execution is coordinated
  // ---------------------------------------------------------------------------

  /** The position was pending at some point, and no commit for it happened since. */
  ghost predicate Free(states: seq<Player>, events: seq<Event>, job: nat, i: nat, n: nat)
    requires n <= |events| && |states| == |events| + 1
  {
    exists a: nat :: a <= n && Chosen(states, events, job, i, a, n)
  }

  lemma FreeStays(states: seq<Player>, events: seq<Event>, job: nat, i: nat, n: nat)
    requires n < |events| && |states| == |events| + 1 && Free(states, events, job, i, n)
    requires !CommitsTo(events[n], job, i)
    ensures Free(states, events, job, i, n + 1)
  {
    var a: nat :| a <= n && Chosen(states, events, job, i, a, n);
    assert Chosen(states, events, job, i, a, n + 1);
  }

  lemma FreeNow(states: seq<Player>, events: seq<Event>, job: nat, i: nat, n: nat)
    requires n <= |events| && |states| == |events| + 1 && PendingSlot(states[n].deck.queue, job, i)
    ensures Free(states, events, job, i, n)
  {
    assert Chosen(states, events, job, i, n, n);
  }

  /** A collection begins with all its positions pending. */
  lemma BeginsPending(s: Player, e: Event, i: nat)
    requires Begins(s, e) && i < |e.edit.tracks|
    ensures PendingSlot(Step(s, e).deck.queue, s.deck.nextJob + 1, i)
  {
    var slots := Slots(e.edit.tracks, true, s.deck.nextJob + 1, s.deck.nextOcc);
    assert slots[i] in s.deck.queue + slots;
  }

  /** A position ahead of a coordinator after a step was ahead before and not committed, or is pending now. */
  lemma StepAhead(m: System, a: Action, m': System, job: nat, i: nat)
    requires AllProper(m) && Enabled(m, a) && m' == SystemStep(m, a)
    requires job in m'.coordinators && Ahead(m'.coordinators[job], i)
    ensures PendingSlot(m'.player.deck.queue, job, i) ||
      (job in m.coordinators && Ahead(m.coordinators[job], i) && !CommitsTo(EventOf(m, a), job, i))
  {
    match a
    case Do(e) =>
      if Begins(m.player, e) && job == m.player.deck.nextJob + 1 {
        BeginsPending(m.player, e, i);
      }
    case Work(worker, w) =>
      if worker == job {
        WorkAhead(m.player, job, m.coordinators[job], w, i);
      }
  }

  ghost predicate AllFree(states: seq<Player>, events: seq<Event>, coordinators: map<nat, Phase>, n: nat)
    requires n <= |events| && |states| == |events| + 1
  {
    forall job, i: nat | job in coordinators && Ahead(coordinators[job], i) :: Free(states, events, job, i, n)
  }

  lemma StepFree(states: seq<Player>, events: seq<Event>, m: System, a: Action, m': System, n: nat)
    requires AllProper(m) && Enabled(m, a) && m' == SystemStep(m, a)
    requires n < |events| && |states| == |events| + 1 && AllFree(states, events, m.coordinators, n)
    requires events[n] == EventOf(m, a) && states[n + 1] == m'.player
    ensures AllFree(states, events, m'.coordinators, n + 1)
  {
    forall job, i: nat | job in m'.coordinators && Ahead(m'.coordinators[job], i)
      ensures Free(states, events, job, i, n + 1)
    {
      StepAhead(m, a, m', job, i);
      if PendingSlot(m'.player.deck.queue, job, i) {
        FreeNow(states, events, job, i, n + 1);
      } else {
        FreeStays(states, events, job, i, n);
      }
    }
  }

  /** The players of an execution go through a run. */
  lemma ExecutionRuns(systems: seq<System>, actions: seq<Action>)
    requires Execution(systems, actions)
    ensures Run(Players(systems), Events(systems, actions))
  {
  }

  lemma {:induction false} AheadIsFree(systems: seq<System>, actions: seq<Action>, n: nat)
    requires Execution(systems, actions) && Sound(systems[0].player.deck) && n <= |actions|
    ensures AllProper(systems[n])
    ensures AllFree(Players(systems), Events(systems, actions), systems[n].coordinators, n)
  {
    if n > 0 {
      var m, a := systems[n - 1], actions[n - 1];
      AheadIsFree(systems, actions, n - 1);
      ExecutionRuns(systems, actions);
      RunSound(Players(systems), Events(systems, actions), n - 1);
      StepIsProper(m, a);
      StepFree(Players(systems), Events(systems, actions), m, a, systems[n], n - 1);
    }
  }

  /** In every execution each commit is for a slot that was pending, with no other commit for it since. */
  lemma ExecutionCoordinated(systems: seq<System>, actions: seq<Action>)
    requires Execution(systems, actions) && Sound(systems[0].player.deck)
    ensures Coordinated(Players(systems), Events(systems, actions))
  {
    var states, events := Players(systems), Events(systems, actions);
    ExecutionRuns(systems, actions);
    forall b, job: nat, i: nat | 0 <= b < |events| && CommitsTo(events[b], job, i)
      ensures exists a :: 0 <= a <= b && Progress.Chosen(states, events, job, i, a, b)
    {
      AheadIsFree(systems, actions, b);
      CommitIsAhead(systems[b], actions[b], job, i);
      assert Free(states, events, job, i, b);
    }
  }

  lemma CommitIsAhead(m: System, a: Action, job: nat, i: nat)
    requires AllProper(m) && Enabled(m, a) && CommitsTo(EventOf(m, a), job, i)
    ensures job in m.coordinators && Ahead(m.coordinators[job], i)
  {
  }

  // ---------------------------------------------------------------------------
  // What holds of every execution
  // ---------------------------------------------------------------------------

  /** In every execution audio progress is conserved, whatever searches finish when. */
  lemma ProgressConserved(systems: seq<System>, actions: seq<Action>, occ: nat, a: nat, b: nat, p: nat, p': nat)
    requires Execution(systems, actions) && Sound(systems[0].player.deck) && a <= b <= |actions|
    requires At(systems[a].player, occ, p) && At(systems[b].player, occ, p')
    ensures p' == p + FRAME * Frames(Players(systems), Events(systems, actions), occ, a, b)
  {
    ExecutionCoordinated(systems, actions);
    Progress.ProgressConserved(Players(systems), Events(systems, actions), occ, a, b, p, p');
  }

  /** In every execution a playing survives a step if and only if the step is one that ends it; no search ever does. */
  lemma EndsExactly(systems: seq<System>, actions: seq<Action>, occ: nat, n: nat)
    requires Execution(systems, actions) && Sound(systems[0].player.deck) && n < |actions|
    requires Retention.Present(systems[n].player.deck, occ)
    ensures Retention.Present(systems[n + 1].player.deck, occ) <==>
      !Retention.Ends(systems[n].player, EventOf(systems[n], actions[n]), occ)
    ensures actions[n].Work? ==> Retention.Present(systems[n + 1].player.deck, occ)
  {
    ExecutionCoordinated(systems, actions);
    Retention.EndsExactly(Players(systems), Events(systems, actions), occ, n);
  }

  /** In every execution a playing that is first counted after a confirmed frame stays counted exactly once. */
  lemma AudioFirstCountsOnce(systems: seq<System>, actions: seq<Action>, occ: nat, i: nat, n: nat)
    requires Execution(systems, actions) && Sound(systems[0].player.deck) && i < n <= |actions|
    requires var states, events := Players(systems), Events(systems, actions);
      && HistoryCount.Counts(states[i], events[i], occ)
      && forall h | 0 <= h < i :: !HistoryCount.Counts(states[h], events[h], occ)
    requires systems[i].player.tape.confirmed > 0
    ensures HistoryCount.Times(Players(systems), Events(systems, actions), occ, n) == 1
  {
    ExecutionCoordinated(systems, actions);
    HistoryCount.AudioFirstCountsOnce(Players(systems), Events(systems, actions), occ, i, n);
  }
}
