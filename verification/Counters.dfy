/**
 What the counters of a collection count: every position that is recorded, once, by how its search came out.
 */
module Counters {
  import opened Prelude
  import opened PlayerState
  import opened SlotIdentity

  datatype Outcome = Played | Missing | Dropped

  /** How a search came out: dropped if nobody wants the song any more, else missing or playable. */
  predicate ComesOut(j: Job, r: Result, o: Outcome) {
    match o
    case Dropped => r.skipped || j.cancelled || r.index >= |j.wanted| || !j.wanted[r.index]
    case Missing => r.failed && !r.skipped && !j.cancelled && r.index < |j.wanted| && j.wanted[r.index]
    case Played => !r.failed && !r.skipped && !j.cancelled && r.index < |j.wanted| && j.wanted[r.index]
  }

  function Counter(j: Job, o: Outcome): nat {
    match o
    case Played => j.resolved
    case Missing => j.failed
    case Dropped => j.skipped
  }

  /** The step records a position of the job for the first time, with this outcome. */
  predicate Records(s: Player, e: Event, id: nat, o: Outcome) {
    && e.R? && e.resolving.RecordResult? && e.resolving.job == id && !s.providerBlocked && id in s.deck.jobs
    && var j, r := s.deck.jobs[id], e.resolving.result;
       r.index < |j.recorded| && !j.recorded[r.index] && ComesOut(j, r, o)
  }

  /** Nothing happens to any counter of a job, nor to what it has recorded; the job may end. */
  predicate Uncounted(jobs: Jobs, jobs': Jobs, nextJob: nat) {
    forall id | id in jobs' && id <= nextJob ::
      id in jobs && jobs'[id].recorded == jobs[id].recorded
      && forall o: Outcome :: Counter(jobs'[id], o) == Counter(jobs[id], o)
  }

  lemma ReleaseUncounted(jobs: Jobs, e: Entry, nextJob: nat)
    ensures Uncounted(jobs, Release(jobs, e), nextJob) && Uncounted(jobs, Discard(jobs, e), nextJob)
  {
  }

  lemma {:induction false} DiscardAllUncounted(jobs: Jobs, dropped: Queue, nextJob: nat)
    ensures Uncounted(jobs, DiscardAll(jobs, dropped), nextJob)
  {
    if dropped != [] {
      var before := DiscardAll(jobs, dropped[..|dropped| - 1]);
      DiscardAllUncounted(jobs, dropped[..|dropped| - 1], nextJob);
      ReleaseUncounted(before, dropped[|dropped| - 1], nextJob);
    }
  }

  lemma EditUncounted(s: Player, e: Edit)
    ensures Uncounted(s.deck.jobs, EditStep(s, e).deck.jobs, s.deck.nextJob)
  {
    var q := s.deck.queue;
    match e
    case RemoveAt(position) =>
      if Upcoming(s.deck, position) { ReleaseUncounted(s.deck.jobs, q[position - 1], s.deck.nextJob); }
    case JumpTo(position) =>
      if Upcoming(s.deck, position) { DiscardAllUncounted(s.deck.jobs, q[..position - 1], s.deck.nextJob); }
    case SkipN(count) =>
      if CanSkip(count) {
        var n := Min(if s.deck.current.Some? then count - 1 else count, |q|);
        DiscardAllUncounted(s.deck.jobs, q[..n], s.deck.nextJob);
      }
    case _ =>
  }

  lemma ControlUncounted(s: Player, c: Control)
    ensures Uncounted(s.deck.jobs, ControlStep(s, c).deck.jobs, s.deck.nextJob)
  {
  }

  lemma PlayUncounted(s: Player, p: Playing)
    ensures Uncounted(s.deck.jobs, PlayStep(s, p).deck.jobs, s.deck.nextJob)
  {
  }

  lemma TransportUncounted(s: Player, t: Transport)
    ensures Uncounted(s.deck.jobs, TransportStep(s, t).deck.jobs, s.deck.nextJob)
  {
  }

  /** A job that is registered before and after a step counts exactly what the step records, under its outcome. */
  lemma StepCounts(s: Player, e: Event, t: Player, id: nat, o: Outcome)
    requires t == Step(s, e) && id <= s.deck.nextJob && id in t.deck.jobs
    ensures id in s.deck.jobs
    ensures Counter(t.deck.jobs[id], o) == Counter(s.deck.jobs[id], o) + if Records(s, e, id, o) then 1 else 0
  {
    match e
    case E(edit) => EditUncounted(s, edit);
    case C(control) => ControlUncounted(s, control);
    case T(transport) => TransportUncounted(s, transport);
    case P(playing) => PlayUncounted(s, playing);
    case R(resolving) => ResolveCounts(s, resolving, id, o);
  }

  lemma ResolveCounts(s: Player, r: Resolving, id: nat, o: Outcome)
    requires id in ResolveStep(s, r).deck.jobs
    ensures id in s.deck.jobs
    ensures Counter(ResolveStep(s, r).deck.jobs[id], o) ==
      Counter(s.deck.jobs[id], o) + if Records(s, R(r), id, o) then 1 else 0
  {
  }

  /** How many positions of the job steps a to b - 1 record with this outcome. */
  function Recordings(states: seq<Player>, events: seq<Event>, id: nat, o: Outcome, a: nat, b: nat): nat
    requires |states| == |events| + 1 && a <= b <= |events|
  {
    if a == b then 0
    else
      Recordings(states, events, id, o, a, b - 1) + if Records(states[b - 1], events[b - 1], id, o) then 1 else 0
  }

  /** A job issued before the step and registered after it was so before, and counts what the step records. */
  predicate Counts(s: Player, e: Event, t: Player, id: nat, o: Outcome) {
    s.deck.nextJob <= t.deck.nextJob &&
    (id <= s.deck.nextJob && id in t.deck.jobs ==>
      && id in s.deck.jobs
      && Counter(t.deck.jobs[id], o) == Counter(s.deck.jobs[id], o) + if Records(s, e, id, o) then 1 else 0)
  }

  ghost predicate CountsAlong(states: seq<Player>, events: seq<Event>, id: nat, o: Outcome, a: nat, b: nat) {
    && |states| == |events| + 1 && a <= b <= |events|
    && forall i | a <= i < b :: Counts(states[i], events[i], states[i + 1], id, o)
  }

  lemma JobsIssued(s: Player, e: Event, t: Player)
    requires Sound(s.deck) && t == Step(s, e)
    ensures s.deck.nextJob <= t.deck.nextJob
  {
    StepKeeps(s, e);
  }

  lemma RunCountsAlong(states: seq<Player>, events: seq<Event>, id: nat, o: Outcome, a: nat, b: nat)
    requires Run(states, events) && Sound(states[0].deck) && a <= b <= |events|
    ensures CountsAlong(states, events, id, o, a, b)
  {
    forall i | a <= i < b
      ensures Counts(states[i], events[i], states[i + 1], id, o)
    {
      RunSound(states, events, i);
      JobsIssued(states[i], events[i], states[i + 1]);
      if id <= states[i].deck.nextJob && id in states[i + 1].deck.jobs {
        StepCounts(states[i], events[i], states[i + 1], id, o);
      }
    }
  }

  lemma {:induction false} JobsGrow(states: seq<Player>, events: seq<Event>, id: nat, o: Outcome, a: nat, b: nat)
    requires CountsAlong(states, events, id, o, a, b)
    ensures states[a].deck.nextJob <= states[b].deck.nextJob
  {
    if a < b {
      assert Counts(states[b - 1], events[b - 1], states[b - 1 + 1], id, o);
      JobsGrow(states, events, id, o, a, b - 1);
    }
  }

  lemma {:induction false} CountersAdd(states: seq<Player>, events: seq<Event>, id: nat, o: Outcome, a: nat, b: nat)
    requires CountsAlong(states, events, id, o, a, b) && id <= states[a].deck.nextJob && id in states[b].deck.jobs
    ensures id in states[a].deck.jobs
    ensures Counter(states[b].deck.jobs[id], o) ==
      Counter(states[a].deck.jobs[id], o) + Recordings(states, events, id, o, a, b)
  {
    if a < b {
      assert Counts(states[b - 1], events[b - 1], states[b - 1 + 1], id, o);
      JobsGrow(states, events, id, o, a, b - 1);
      CountersAdd(states, events, id, o, a, b - 1);
    }
  }

  /** In every run each counter of a job grows by exactly the positions recorded with its outcome, each once. */
  lemma CountersExact(states: seq<Player>, events: seq<Event>, id: nat, o: Outcome, a: nat, b: nat)
    requires Run(states, events) && Sound(states[0].deck) && a <= b <= |events|
    requires id <= states[a].deck.nextJob && id in states[b].deck.jobs
    ensures id in states[a].deck.jobs
    ensures Counter(states[b].deck.jobs[id], o) ==
      Counter(states[a].deck.jobs[id], o) + Recordings(states, events, id, o, a, b)
  {
    RunCountsAlong(states, events, id, o, a, b);
    CountersAdd(states, events, id, o, a, b);
  }
}
