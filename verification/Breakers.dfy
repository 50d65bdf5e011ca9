/**
 When the breaker closes, when a trial is due and when it is given back, and when a start is granted: over whole runs.
 */
module Breakers {
  import opened Prelude
  import opened Admission

  /** The waits before a trial: 15 s, 30 s, 60 s, and two minutes from then on. */
  lemma BackoffValues(n: nat)
    ensures Backoff(n) == if n == 0 then 15_000 else if n == 1 then 30_000 else if n == 2 then 60_000 else 120_000
  {
    assert Doubling(1) == 2 && Doubling(2) == 4 && Doubling(3) == 8;
  }

  /** A confirmed restriction of the provider is observed. */
  predicate Restricts(e: Event) {
    e.Observed? && e.category.Some?
  }

  /** A start is admitted in the name of this permit. */
  ghost predicate SpendsOn(s: System, c: Config, e: Event, p: Permit) {
    Grants(s, c, e) && e.permit == Some(p)
  }

  // ---------------------------------------------------------------------------
  // An outstanding trial
  // ---------------------------------------------------------------------------

  /** Trial p was issued by event i and has been out ever since, up to point j. */
  ghost predicate OutSince(states: seq<System>, events: seq<Event>, i: nat, j: nat, p: Permit) {
    && i < j < |states| && |states| == |events| + 1
    && Issues(states[i], events[i]) && PermitOf(states[i], events[i]) == p
    && forall k | i < k <= j :: states[k].breaker.probe == Some(p)
  }

  lemma OutStep(s: System, c: Config, e: Event, t: System, p: Permit)
    requires Enabled(s, c, e) && t == Step(s, c, e) && s.breaker.probe == Some(p) == t.breaker.probe
    ensures t.breaker.probeFailures == s.breaker.probeFailures
    ensures t.breaker.failures == s.breaker.failures + if Restricts(e) then 1 else 0
    ensures t.breaker.probeSpent == (s.breaker.probeSpent || SpendsOn(s, c, e, p))
  {
  }

  lemma IssueStep(s: System, c: Config, e: Event, t: System)
    requires Enabled(s, c, e) && t == Step(s, c, e) && Issues(s, e)
    ensures t.breaker.probe == Some(PermitOf(s, e)) && s.breaker.probe == None
    ensures t.breaker.probeFailures == t.breaker.failures && !t.breaker.probeSpent
  {
  }

  /** Since its issue: whether a restriction was observed, and whether a start was admitted for the trial. */
  lemma {:induction false} SinceIssue(c: Config, states: seq<System>, events: seq<Event>, i: nat, j: nat, p: Permit)
    requires Executes(c, states, events) && OutSince(states, events, i, j, p)
    ensures states[j].breaker.probeFailures <= states[j].breaker.failures
    ensures states[j].breaker.failures == states[j].breaker.probeFailures <==>
      forall k | i < k < j :: !Restricts(events[k])
    ensures states[j].breaker.probeSpent <==> exists k :: i < k < j && SpendsOn(states[k], c, events[k], p)
    decreases j
  {
    if j == i + 1 {
      IssueStep(states[i], c, events[i], states[j]);
    } else {
      SinceIssue(c, states, events, i, j - 1, p);
      OutStep(states[j - 1], c, events[j - 1], states[j], p);
    }
  }

  lemma NewTrialStep(s: System, c: Config, e: Event, t: System)
    requires Enabled(s, c, e) && t == Step(s, c, e) && t.breaker.probe.Some? && t.breaker.probe != s.breaker.probe
    ensures Issues(s, e) && t.breaker.probe == Some(PermitOf(s, e))
  {
  }

  lemma {:induction false} IssuedBefore(c: Config, states: seq<System>, events: seq<Event>, j: nat) returns (i: nat)
    requires Executes(c, states, events) && j < |states|
    requires states[0].breaker.probe == None && states[j].breaker.probe.Some?
    ensures i < j && OutSince(states, events, i, j, states[j].breaker.probe.value)
    decreases j
  {
    if states[j - 1].breaker.probe == states[j].breaker.probe {
      i := IssuedBefore(c, states, events, j - 1);
    } else {
      i := j - 1;
      NewTrialStep(states[i], c, events[i], states[j]);
    }
  }

  // ---------------------------------------------------------------------------
  // Closing
  // ---------------------------------------------------------------------------

  /** The holder of the outstanding trial reports success, or sustained media admitted in this epoch. */
  predicate Succeeds(b: Breaker, e: Event) {
    b.probe.Some? &&
    ((e.Finished? && e.permit == b.probe && e.ending == Succeeded) || e == Sustained(b.probe, b.epoch))
  }

  lemma StepCloses(s: System, c: Config, e: Event, t: System)
    requires Enabled(s, c, e) && t == Step(s, c, e) && Sound(s.breaker) && s.breaker.status.blocked
    ensures !t.breaker.status.blocked <==>
      || (e == Rearmed && s.breaker.probe == None)
      || (Succeeds(s.breaker, e) && s.breaker.failures == s.breaker.probeFailures)
  {
  }

  /** No restriction was observed since the outstanding trial was issued. */
  ghost predicate Quiet(states: seq<System>, events: seq<Event>, j: nat)
    requires j < |states|
  {
    exists i: nat, p :: OutSince(states, events, i, j, p) && forall k | i < k < j :: !Restricts(events[k])
  }

  lemma QuietIff(c: Config, states: seq<System>, events: seq<Event>, j: nat)
    requires Executes(c, states, events) && j < |states|
    requires states[0].breaker.probe == None && states[j].breaker.probe.Some?
    ensures Quiet(states, events, j) <==> states[j].breaker.failures == states[j].breaker.probeFailures
  {
    var i := IssuedBefore(c, states, events, j);
    SinceIssue(c, states, events, i, j, states[j].breaker.probe.value);
    if Quiet(states, events, j) {
      var i': nat, p :| OutSince(states, events, i', j, p) && forall k | i' < k < j :: !Restricts(events[k]);
      SinceIssue(c, states, events, i', j, p);
    }
  }

  /**
   In every run the breaker closes exactly when an operator rearms it with no trial out, or the outstanding trial
   succeeds and no restriction was observed since it was issued: a failed or cancelled trial never closes it.
   */
  lemma ClosesIff(c: Config, states: seq<System>, events: seq<Event>, j: nat)
    requires Executes(c, states, events) && Starts(c, states[0]) && states[0].breaker.probe == None
    requires j < |events| && states[j].breaker.status.blocked
    ensures !states[j + 1].breaker.status.blocked <==>
      || (events[j] == Rearmed && states[j].breaker.probe == None)
      || (Succeeds(states[j].breaker, events[j]) && Quiet(states, events, j))
  {
    RunSound(c, states, events, j);
    StepCloses(states[j], c, events[j], states[j + 1]);
    if states[j].breaker.probe.Some? {
      QuietIff(c, states, events, j);
    }
  }

  /** The breaker opens exactly when a restriction is observed. */
  lemma OpensIff(s: System, c: Config, e: Event, t: System)
    requires Enabled(s, c, e) && t == Step(s, c, e) && !s.breaker.status.blocked
    ensures t.breaker.status.blocked <==> Restricts(e)
  {
  }

  /** A trial is given back exactly when it is cancelled before a start was admitted for it. */
  lemma RefundIff(c: Config, states: seq<System>, events: seq<Event>, i: nat, j: nat, p: Permit)
    requires Executes(c, states, events) && j < |events| && OutSince(states, events, i, j, p)
    ensures Refunds(states[j], events[j]) <==>
      && events[j].Finished? && events[j].permit == Some(p) && events[j].ending == Canceled
      && forall k | i < k < j :: !SpendsOn(states[k], c, events[k], p)
  {
    SinceIssue(c, states, events, i, j, p);
  }

  // ---------------------------------------------------------------------------
  // When a trial is due
  // ---------------------------------------------------------------------------

  /** A restriction opens the breaker, or the outstanding trial ends without closing it. */
  predicate SetsBack(s: System, e: Event, t: System) {
    && t.breaker.status.blocked
    && ((Restricts(e) && !s.breaker.status.blocked)
        || (e.Finished? && s.breaker.probe.Some? && e.permit == s.breaker.probe))
  }

  lemma SetbackStep(s: System, c: Config, e: Event, t: System)
    requires Enabled(s, c, e) && t == Step(s, c, e) && Sound(s.breaker) && Sound(t.breaker) && SetsBack(s, e, t)
    ensures t.breaker.status.retryAt == e.now + Backoff(t.breaker.status.attempts)
  {
  }

  lemma NoSetbackStep(s: System, c: Config, e: Event, t: System)
    requires Enabled(s, c, e) && t == Step(s, c, e) && t.breaker.status.blocked && !SetsBack(s, e, t)
    ensures s.breaker.status.blocked && t.breaker.status.retryAt == s.breaker.status.retryAt
  {
  }

  /** Event i was the last setback before point j, and the breaker has been open since. */
  ghost predicate LastSetback(states: seq<System>, events: seq<Event>, i: nat, j: nat) {
    && i < j < |states| && |states| == |events| + 1 && SetsBack(states[i], events[i], states[i + 1])
    && (forall k | i < k < j :: !SetsBack(states[k], events[k], states[k + 1]))
    && (forall k | i < k <= j :: states[k].breaker.status.blocked)
  }

  lemma {:induction false} SetbackBefore(c: Config, states: seq<System>, events: seq<Event>, j: nat) returns (i: nat)
    requires Executes(c, states, events) && Starts(c, states[0]) && j < |states|
    requires !states[0].breaker.status.blocked && states[j].breaker.status.blocked
    ensures LastSetback(states, events, i, j) && 0 <= states[i + 1].breaker.status.attempts
    ensures states[j].breaker.status.retryAt == events[i].now + Backoff(states[i + 1].breaker.status.attempts)
    decreases j
  {
    RunSound(c, states, events, j - 1);
    RunSound(c, states, events, j);
    if SetsBack(states[j - 1], events[j - 1], states[j]) {
      i := j - 1;
      SetbackStep(states[i], c, events[i], states[j]);
    } else {
      NoSetbackStep(states[j - 1], c, events[j - 1], states[j]);
      i := SetbackBefore(c, states, events, j - 1);
    }
  }

  lemma IssuesIff(s: System, c: Config, e: Event)
    requires Sound(s.breaker) && s.breaker.status.blocked && e.Waited?
    ensures Issues(s, e) <==>
      && !e.canceled && s.breaker.probe == None && s.breaker.status.attempts < 3 && e.now >= s.breaker.status.retryAt
  {
  }

  /**
   While the breaker is open a caller that waits is given a trial exactly when none is out, fewer than three are spent,
   and the wait since the last setback is over: 15 seconds after the incident opened, then longer with each attempt.
   */
  lemma TrialIssuedIff(c: Config, states: seq<System>, events: seq<Event>, j: nat) returns (i: nat)
    requires Executes(c, states, events) && Starts(c, states[0]) && !states[0].breaker.status.blocked
    requires j < |events| && states[j].breaker.status.blocked && events[j].Waited?
    ensures LastSetback(states, events, i, j) && 0 <= states[i + 1].breaker.status.attempts
    ensures Issues(states[j], events[j]) <==>
      && !events[j].canceled && states[j].breaker.probe == None && states[j].breaker.status.attempts < 3
      && events[j].now >= events[i].now + Backoff(states[i + 1].breaker.status.attempts)
  {
    i := SetbackBefore(c, states, events, j);
    RunSound(c, states, events, j);
    IssuesIff(states[j], c, events[j]);
  }

  // ---------------------------------------------------------------------------
  // When a start is granted
  // ---------------------------------------------------------------------------

  lemma GrantStep(s: System, c: Config, e: Event, t: System)
    requires Enabled(s, c, e) && t == Step(s, c, e)
    ensures t.breaker.nextStart == if Grants(s, c, e) then e.later + c.interval else s.breaker.nextStart
  {
  }

  lemma {:induction false} PaceKept(c: Config, states: seq<System>, events: seq<Event>, a: nat, j: nat)
    requires Executes(c, states, events) && a <= j < |states|
    requires forall k | a <= k < j :: !Grants(states[k], c, events[k])
    ensures states[j].breaker.nextStart == states[a].breaker.nextStart
    decreases j
  {
    if a < j {
      PaceKept(c, states, events, a, j - 1);
      GrantStep(states[j - 1], c, events[j - 1], states[j]);
    }
  }

  /** Nobody is refused for the breaker while it is closed, nor with the permit of the outstanding trial. */
  predicate Welcome(b: Breaker, e: Event)
    requires e.Tried?
  {
    !b.status.blocked || (b.probe.Some? && e.permit == b.probe)
  }

  lemma GrantsIff(s: System, c: Config, e: Event)
    requires e.Tried?
    ensures Grants(s, c, e) <==> !e.canceled && Welcome(s.breaker, e) && e.now >= s.breaker.nextStart
  {
  }

  /** A caller is let in exactly when it is welcome and the interval since the last start has passed. */
  lemma StartGrantedIff(c: Config, states: seq<System>, events: seq<Event>, i: nat, j: nat)
    requires Executes(c, states, events) && i < j < |events| && events[j].Tried?
    requires Grants(states[i], c, events[i]) && forall k | i < k < j :: !Grants(states[k], c, events[k])
    ensures Grants(states[j], c, events[j]) <==>
      && !events[j].canceled && Welcome(states[j].breaker, events[j])
      && events[j].now >= events[i].later + c.interval
  {
    GrantStep(states[i], c, events[i], states[i + 1]);
    PaceKept(c, states, events, i + 1, j);
    GrantsIff(states[j], c, events[j]);
  }

  /** The first start waits for nothing but the breaker. */
  lemma FirstStartGrantedIff(c: Config, states: seq<System>, events: seq<Event>, j: nat)
    requires Executes(c, states, events) && j < |events| && events[j].Tried?
    requires states[0].breaker.nextStart <= events[j].now
    requires forall k | 0 <= k < j :: !Grants(states[k], c, events[k])
    ensures Grants(states[j], c, events[j]) <==> !events[j].canceled && Welcome(states[j].breaker, events[j])
  {
    PaceKept(c, states, events, 0, j);
    GrantsIff(states[j], c, events[j]);
  }
}
