/**
 Process-wide admission to the media provider: a circuit breaker with a single recovery
 trial and a refundable trial budget, start pacing, and a bound on concurrent starts.

 Every critical section of the original is one step; times are explicit, in milliseconds.
 */
module Admission {
  import opened Prelude

  const TRIALS := 3

  function Backoff(attempt: nat): int {
    Min(120000, 15000 * Doubling(Min(attempt, 3)))
  }

  function Doubling(n: nat): nat {
    if n == 0 then 1 else 2 * Doubling(n - 1)
  }

  /** A permit names the incident and the attempt; after a refund the same permit can be issued again. */
  datatype Permit = Permit(incident: nat, attempt: nat)

  datatype Status = Status(
    blocked: bool, exhausted: bool, incident: Option<nat>, category: string, attempts: int, retryAt: int)

  const HEALTHY := Status(false, false, None, "", 0, 0)

  datatype Breaker = Breaker(
    status: Status, epoch: nat, probe: Option<Permit>, probeSpent: bool,
    failures: nat, probeFailures: nat, nextStart: int)

  /** How a trial ended. */
  datatype Ending = Succeeded | Canceled | Failed

  datatype Recovery = Abandoned | Unblocked | Trial(permit: Permit) | Waiting

  datatype Admitted = GaveUp | Refused(category: string) | Granted(epoch: nat) | Paced

  // ---------------------------------------------------------------------------
  // The critical sections
  // ---------------------------------------------------------------------------

  /** `category` is None for an error that is no confirmed restriction of the provider. */
  function Observe(b: Breaker, category: Option<string>, now: int): Breaker {
    if category == None then b
    else
      var opening := b.status.incident == None;
      var attempts := if opening then 0 else b.status.attempts;
      var epoch := if opening then b.epoch + 1 else b.epoch;
      b.(epoch := epoch, failures := b.failures + 1,
         status := Status(true, attempts >= TRIALS,
                          Some(if opening then epoch else b.status.incident.value), category.value, attempts,
                          if b.status.blocked then b.status.retryAt else now + Backoff(Max(attempts, 0))))
  }

  function WaitRecovery(b: Breaker, canceled: bool, now: int): (Breaker, Recovery) {
    if canceled then (b, Abandoned)
    else if !b.status.blocked then (b, Unblocked)
    else if b.probe == None && b.status.attempts < TRIALS && now >= b.status.retryAt && b.status.incident.Some? then
      var attempts := b.status.attempts + 1;
      var permit := Permit(b.status.incident.value, Max(attempts, 0));
      (b.(status := b.status.(attempts := attempts, exhausted := false),
          probe := Some(permit), probeSpent := false, probeFailures := b.failures), Trial(permit))
    else (b, Waiting)
  }

  function FinishTrial(b: Breaker, permit: Option<Permit>, ending: Ending, now: int): Breaker {
    if permit == None || b.probe != permit then b
    else if ending == Succeeded && b.failures == b.probeFailures then
      b.(status := b.status.(blocked := false, exhausted := false), probe := None)
    else
      var attempts := if ending == Canceled && !b.probeSpent then b.status.attempts - 1 else b.status.attempts;
      b.(status := b.status.(attempts := attempts, retryAt := now + Backoff(Max(attempts, 0)),
                                 exhausted := attempts >= TRIALS),
         probe := None)
  }

  function Rearm(b: Breaker): Breaker {
    if b.probe.Some? then b else b.(epoch := b.epoch + 1, status := HEALTHY)
  }

  predicate Passes(b: Breaker, permit: Option<Permit>) {
    !b.status.blocked || (b.probe.Some? && permit == b.probe)
  }

  /** One round of the admission loop; the clock is read at `now` and again at `later`. */
  function Admit(b: Breaker, canceled: bool, permit: Option<Permit>, now: int, later: int, interval: nat):
    (Breaker, Admitted) {
    if canceled then (b, GaveUp)
    else if !Passes(b, permit) then (b, Refused(b.status.category))
    else if now < b.nextStart then (b, Paced)
    else (b.(nextStart := later + interval,
              probeSpent := b.probeSpent || (b.probe.Some? && permit == b.probe)), Granted(b.epoch))
  }

  function SustainedMedia(b: Breaker, permit: Option<Permit>, epoch: nat): Breaker {
    if epoch != b.epoch || b.status.incident == None then b
    else if b.status.blocked && (b.probe == None || permit != b.probe || b.failures != b.probeFailures) then b
    else b.(epoch := b.epoch + 1, status := HEALTHY, probe := None)
  }

  // ---------------------------------------------------------------------------
  // The shared object
  // ---------------------------------------------------------------------------

  /** A caller holds its slot while in the admission loop and, once granted, until it releases it. */
  datatype Phase = InLoop | Holding | Done

  datatype System = System(breaker: Breaker, slots: nat, callers: map<nat, Phase>)

  datatype Event =
    | Observed(category: Option<string>, now: int)
    | Waited(canceled: bool, now: int)
    | Finished(permit: Option<Permit>, ending: Ending, now: int)
    | Rearmed
    | Entered(id: nat)
    | Tried(id: nat, canceled: bool, permit: Option<Permit>, now: int, later: int)
    | Released(id: nat)
    | Sustained(permit: Option<Permit>, epoch: nat)

  datatype Config = Config(concurrency: nat, interval: nat)

  predicate Enabled(s: System, c: Config, e: Event) {
    match e
    case Entered(id) => id !in s.callers && s.slots < c.concurrency
    case Tried(id, _, _, now, later) => id in s.callers && s.callers[id] == InLoop && now <= later
    case Released(id) => id in s.callers && s.callers[id] != InLoop
    case _ => true
  }

  function Step(s: System, c: Config, e: Event): System
    requires Enabled(s, c, e)
  {
    match e
    case Observed(category, now) => s.(breaker := Observe(s.breaker, category, now))
    case Waited(canceled, now) => s.(breaker := WaitRecovery(s.breaker, canceled, now).0)
    case Finished(permit, ending, now) => s.(breaker := FinishTrial(s.breaker, permit, ending, now))
    case Rearmed => s.(breaker := Rearm(s.breaker))
    case Entered(id) => s.(slots := s.slots + 1, callers := s.callers[id := InLoop])
    case Tried(id, canceled, permit, now, later) =>
      var (b, result) := Admit(s.breaker, canceled, permit, now, later, c.interval);
      if result.Paced? then s
      else if result.Granted? then s.(breaker := b, callers := s.callers[id := Holding])
      else s.(slots := Max(0, s.slots - 1), callers := s.callers[id := Done])
    case Released(id) =>
      if s.callers[id] == Done then s else s.(slots := Max(0, s.slots - 1), callers := s.callers[id := Done])
    case Sustained(permit, epoch) => s.(breaker := SustainedMedia(s.breaker, permit, epoch))
  }

  class ProviderAdmission {
    const config: Config
    var slots: nat
    var nextStart: int
    var status: Status
    var epoch: nat
    var probe: Option<Permit>
    var probeSpent: bool
    var failures: nat
    var probeFailures: nat
    var callers: map<nat, Phase>

    function Model(): System
      reads this
    {
      System(Breaker(status, epoch, probe, probeSpent, failures, probeFailures, nextStart), slots, callers)
    }

    ghost predicate Valid()
      reads this
    {
      Sound(Model().breaker) && Counted(Model(), config)
    }

    constructor (config: Config)
      ensures Valid() && this.config == config
      ensures Model() == System(Breaker(HEALTHY, 0, None, false, 0, 0, 0), 0, map[])
    {
      this.config := config;
      slots, nextStart, status, epoch, probe := 0, 0, HEALTHY, 0, None;
      probeSpent, failures, probeFailures, callers := false, 0, 0, map[];
      new;
      assert HoldersOf(Model()) == {};
    }

    method ObserveError(category: Option<string>, now: int)
      requires Valid()
      modifies this
      ensures Model() == Step(old(Model()), config, Observed(category, now)) && Valid()
    {
      StepSound(Model(), config, Observed(category, now));
      if category == None {
        return;
      }
      if status.incident == None {
        epoch := epoch + 1;
        status := status.(incident := Some(epoch), attempts := 0);
      }
      failures := failures + 1;
      if !status.blocked {
        status := status.(retryAt := now + Backoff(status.attempts));
      }
      status := status.(blocked := true, category := category.value, exhausted := status.attempts >= TRIALS);
    }

    method Recover(canceled: bool, now: int) returns (result: Recovery)
      requires Valid()
      modifies this
      ensures Model() == Step(old(Model()), config, Waited(canceled, now)) && Valid()
      ensures result == WaitRecovery(old(Model()).breaker, canceled, now).1
    {
      StepSound(Model(), config, Waited(canceled, now));
      if canceled {
        return Abandoned;
      }
      if !status.blocked {
        return Unblocked;
      }
      var eligible := probe == None && status.attempts < TRIALS;
      if eligible && now >= status.retryAt {
        status := status.(attempts := status.attempts + 1, exhausted := false);
        probe := Some(Permit(status.incident.value, status.attempts));
        probeSpent := false;
        probeFailures := failures;
        return Trial(probe.value);
      }
      return Waiting;
    }

    method Finish(permit: Option<Permit>, ending: Ending, now: int)
      requires Valid()
      modifies this
      ensures Model() == Step(old(Model()), config, Finished(permit, ending, now)) && Valid()
    {
      StepSound(Model(), config, Finished(permit, ending, now));
      if permit == None || probe != permit {
        return;
      }
      if ending == Succeeded && failures == probeFailures {
        status := status.(blocked := false, exhausted := false);
      } else {
        if ending == Canceled && !probeSpent {
          status := status.(attempts := status.attempts - 1);
        }
        status := status.(retryAt := now + Backoff(status.attempts));
        status := status.(exhausted := status.attempts >= TRIALS);
      }
      probe := None;
    }

    method RearmBudget()
      requires Valid()
      modifies this
      ensures Model() == Step(old(Model()), config, Rearmed) && Valid()
    {
      StepSound(Model(), config, Rearmed);
      if probe.Some? {
        return;
      }
      epoch := epoch + 1;
      status := HEALTHY;
    }

    /** Takes a slot; the original blocks until one is free. */
    method Enter(id: nat)
      requires Valid() && Enabled(Model(), config, Entered(id))
      modifies this
      ensures Model() == Step(old(Model()), config, Entered(id)) && Valid()
    {
      StepSound(Model(), config, Entered(id));
      slots := slots + 1;
      callers := callers[id := InLoop];
    }

    method TryAdmit(id: nat, canceled: bool, permit: Option<Permit>, now: int, later: int) returns (result: Admitted)
      requires Valid() && Enabled(Model(), config, Tried(id, canceled, permit, now, later))
      modifies this
      ensures Model() == Step(old(Model()), config, Tried(id, canceled, permit, now, later)) && Valid()
      ensures result == Admit(old(Model()).breaker, canceled, permit, now, later, config.interval).1
    {
      StepSound(Model(), config, Tried(id, canceled, permit, now, later));
      if canceled {
        Free(id);
        return GaveUp;
      }
      if status.blocked && (probe == None || permit != probe) {
        Free(id);
        return Refused(status.category);
      }
      if now < nextStart {
        return Paced;
      }
      nextStart := later + config.interval;
      if probe.Some? && permit == probe {
        probeSpent := true;
      }
      callers := callers[id := Holding];
      return Granted(epoch);
    }

    method Free(id: nat)
      requires id in callers && callers[id] != Done
      modifies this`slots, this`callers
      ensures slots == Max(0, old(slots) - 1) && callers == old(callers)[id := Done]
    {
      slots := if slots > 0 then slots - 1 else 0;
      callers := callers[id := Done];
    }

    /** The release closure runs at most once. */
    method Release(id: nat)
      requires Valid() && Enabled(Model(), config, Released(id))
      modifies this
      ensures Model() == Step(old(Model()), config, Released(id)) && Valid()
    {
      StepSound(Model(), config, Released(id));
      if callers[id] != Done {
        Free(id);
      }
    }

    method Confirm(permit: Option<Permit>, admittedEpoch: nat)
      requires Valid()
      modifies this
      ensures Model() == Step(old(Model()), config, Sustained(permit, admittedEpoch)) && Valid()
    {
      StepSound(Model(), config, Sustained(permit, admittedEpoch));
      if admittedEpoch != epoch || status.incident == None {
        return;
      }
      if status.blocked && (probe == None || permit != probe || failures != probeFailures) {
        return;
      }
      epoch := epoch + 1;
      status := HEALTHY;
      probe := None;
    }
  }

  // ---------------------------------------------------------------------------
  // Invariants
  // ---------------------------------------------------------------------------

  /** The trial outstanding belongs to the open incident and is its latest attempt. */
  ghost predicate Sound(b: Breaker) {
    && 0 <= b.status.attempts <= TRIALS
    && (b.status.incident == None ==> b.status.attempts == 0 && !b.status.blocked)
    && (b.status.incident.Some? ==> b.status.incident.value == b.epoch)
    && (b.probe.Some? ==>
          && b.status.blocked && b.status.attempts > 0
          && b.status.incident == Some(b.probe.value.incident) && b.probe.value.attempt == b.status.attempts)
    && (b.status.blocked && b.probe == None ==> (b.status.exhausted <==> b.status.attempts == TRIALS))
  }

  ghost function HoldersOf(s: System): set<nat> {
    set id | id in s.callers && s.callers[id] != Done
  }

  /** Slots taken are exactly those of callers in the loop and of grants not yet released. */
  ghost predicate Counted(s: System, c: Config) {
    s.slots == |HoldersOf(s)| <= c.concurrency
  }

  lemma BreakerSound(s: System, c: Config, e: Event)
    requires Enabled(s, c, e) && Sound(s.breaker)
    ensures Sound(Step(s, c, e).breaker)
  {
  }

  lemma SlotsCounted(s: System, c: Config, e: Event)
    requires Enabled(s, c, e) && Counted(s, c)
    ensures Counted(Step(s, c, e), c)
  {
    var t := Step(s, c, e);
    match e
    case Entered(id) => assert HoldersOf(t) == HoldersOf(s) + {id};
    case Tried(id, _, _, _, _) =>
      assert id in HoldersOf(s);
      assert HoldersOf(t) == HoldersOf(s) || HoldersOf(t) == HoldersOf(s) - {id};
    case Released(id) =>
      assert s.callers[id] == Done || id in HoldersOf(s);
      assert HoldersOf(t) == HoldersOf(s) - {id};
    case _ => assert HoldersOf(t) == HoldersOf(s);
  }

  lemma StepSound(s: System, c: Config, e: Event)
    requires Enabled(s, c, e) && Sound(s.breaker) && Counted(s, c)
    ensures Sound(Step(s, c, e).breaker) && Counted(Step(s, c, e), c)
  {
    BreakerSound(s, c, e);
    SlotsCounted(s, c, e);
  }

  // ---------------------------------------------------------------------------
  // Runs
  // ---------------------------------------------------------------------------

  ghost predicate Executes(c: Config, states: seq<System>, events: seq<Event>) {
    && |states| == |events| + 1
    && forall i | 0 <= i < |events| :: Enabled(states[i], c, events[i])
         && states[i + 1] == Step(states[i], c, events[i])
  }

  ghost predicate Starts(c: Config, s: System) {
    Sound(s.breaker) && Counted(s, c)
  }

  lemma {:induction false} RunSound(c: Config, states: seq<System>, events: seq<Event>, i: nat)
    requires Executes(c, states, events) && Starts(c, states[0]) && i < |states|
    ensures Sound(states[i].breaker) && Counted(states[i], c)
  {
    if i > 0 {
      RunSound(c, states, events, i - 1);
      StepSound(states[i - 1], c, events[i - 1]);
    }
  }

  /** Event i issues a recovery trial. */
  ghost predicate Issues(s: System, e: Event) {
    e.Waited? && WaitRecovery(s.breaker, e.canceled, e.now).1.Trial?
  }

  /** Event i gives a trial back to the budget. */
  ghost predicate Refunds(s: System, e: Event) {
    e.Finished? && e.permit.Some? && s.breaker.probe == e.permit && e.ending == Canceled && !s.breaker.probeSpent
  }

  /** Event i speaks for the holder of the outstanding trial. */
  ghost predicate Ends(s: System, e: Event) {
    && s.breaker.probe.Some?
    && ((e.Finished? && e.permit == s.breaker.probe) || (e.Sustained? && e.permit == s.breaker.probe))
  }

  /** At most one trial is outstanding: between two trials the first one's holder ended it. */
  lemma {:induction false} OneTrialAtATime(c: Config, states: seq<System>, events: seq<Event>, i: nat, j: nat)
    requires Executes(c, states, events) && Starts(c, states[0]) && i < j < |events|
    requires Issues(states[i], events[i]) && Issues(states[j], events[j])
    ensures exists k :: i < k < j && Ends(states[k], events[k]) && states[k + 1].breaker.probe == None
  {
    var k := j;
    while k > i + 1 && !(Ends(states[k - 1], events[k - 1]) && states[k].breaker.probe == None)
      invariant i < k <= j && states[k].breaker.probe == None
    {
      RunSound(c, states, events, k - 1);
      k := k - 1;
    }
  }

  ghost function Trials(states: seq<System>, events: seq<Event>, i: nat, j: nat): int
    requires i <= j <= |events| && |states| > |events|
  {
    if i == j then 0
    else
      var issued := if Issues(states[j - 1], events[j - 1]) then 1 else 0;
      var refunded := if Refunds(states[j - 1], events[j - 1]) then 1 else 0;
      Trials(states, events, i, j - 1) + issued - refunded
  }

  ghost predicate SameIncident(states: seq<System>, i: nat, j: nat)
    requires i <= j < |states|
  {
    states[i].breaker.status.incident.Some? && states[i].breaker.status.incident == states[j].breaker.status.incident
  }

  lemma {:induction false} EpochsGrow(c: Config, states: seq<System>, events: seq<Event>, i: nat, j: nat)
    requires Executes(c, states, events) && Starts(c, states[0]) && i <= j < |states|
    ensures states[i].breaker.epoch <= states[j].breaker.epoch
    ensures states[i].breaker.epoch == states[j].breaker.epoch ==>
      states[i].breaker.status.incident == states[j].breaker.status.incident
    decreases j
  {
    if i < j {
      EpochsGrow(c, states, events, i, j - 1);
      RunSound(c, states, events, j - 1);
    }
  }

  lemma BudgetStep(s: System, c: Config, e: Event, t: System)
    requires Enabled(s, c, e) && Sound(s.breaker) && t == Step(s, c, e)
    ensures s.breaker.epoch <= t.breaker.epoch
    ensures s.breaker.status.incident.Some? && t.breaker.epoch == s.breaker.epoch ==>
      t.breaker.status.attempts ==
      s.breaker.status.attempts + (if Issues(s, e) then 1 else 0) - (if Refunds(s, e) then 1 else 0)
  {
  }

  lemma BudgetNext(c: Config, states: seq<System>, events: seq<Event>, k: nat)
    requires Executes(c, states, events) && Starts(c, states[0]) && k < |events|
    ensures states[k].breaker.epoch <= states[k + 1].breaker.epoch
    ensures states[k].breaker.status.incident.Some? && states[k + 1].breaker.epoch == states[k].breaker.epoch ==>
      states[k + 1].breaker.status.attempts == states[k].breaker.status.attempts
        + (if Issues(states[k], events[k]) then 1 else 0) - (if Refunds(states[k], events[k]) then 1 else 0)
  {
    RunSound(c, states, events, k);
    BudgetStep(states[k], c, events[k], states[k + 1]);
  }

  lemma {:induction false} BudgetWithinEpoch(c: Config, states: seq<System>, events: seq<Event>, i: nat, j: nat)
    requires Executes(c, states, events) && Starts(c, states[0]) && i <= j < |states|
    requires states[i].breaker.status.incident.Some? && states[i].breaker.epoch == states[j].breaker.epoch
    ensures states[j].breaker.status.attempts == states[i].breaker.status.attempts + Trials(states, events, i, j)
    decreases j
  {
    if i < j {
      EpochsGrow(c, states, events, i, j - 1);
      BudgetNext(c, states, events, j - 1);
      BudgetWithinEpoch(c, states, events, i, j - 1);
    }
  }

  /** Within one incident the attempts counted are the trials issued less those refunded, never outside 0 to 3. */
  lemma BudgetIsExact(c: Config, states: seq<System>, events: seq<Event>, i: nat, j: nat)
    requires Executes(c, states, events) && Starts(c, states[0]) && i <= j < |states| && SameIncident(states, i, j)
    ensures states[j].breaker.status.attempts == states[i].breaker.status.attempts + Trials(states, events, i, j)
    ensures 0 <= states[j].breaker.status.attempts <= TRIALS
  {
    RunSound(c, states, events, i);
    RunSound(c, states, events, j);
    BudgetWithinEpoch(c, states, events, i, j);
  }

  ghost function PermitOf(s: System, e: Event): Permit
    requires Issues(s, e)
  {
    WaitRecovery(s.breaker, e.canceled, e.now).1.permit
  }

  lemma {:induction false} NoRefundNoLoss(states: seq<System>, events: seq<Event>, i: nat, j: nat)
    requires i <= j <= |events| && |states| > |events|
    requires forall k | i <= k < j :: !Refunds(states[k], events[k])
    ensures Trials(states, events, i, j) >= 0
  {
    if i < j {
      NoRefundNoLoss(states, events, i, j - 1);
    }
  }

  lemma IssueNumbers(s: System, c: Config, e: Event, t: System)
    requires Enabled(s, c, e) && Sound(s.breaker) && t == Step(s, c, e) && Issues(s, e)
    ensures s.breaker.status.incident == t.breaker.status.incident == Some(PermitOf(s, e).incident)
    ensures s.breaker.epoch == t.breaker.epoch == PermitOf(s, e).incident
    ensures s.breaker.status.attempts + 1 == t.breaker.status.attempts == PermitOf(s, e).attempt
  {
  }

  /** A permit names one trial, unless a trial of its incident was given back in between. */
  lemma RepeatNeedsRefund(c: Config, states: seq<System>, events: seq<Event>, i: nat, j: nat)
    requires Executes(c, states, events) && Starts(c, states[0]) && i < j < |events|
    requires Issues(states[i], events[i]) && Issues(states[j], events[j])
    requires PermitOf(states[i], events[i]) == PermitOf(states[j], events[j])
    ensures exists k :: i < k < j && Refunds(states[k], events[k])
  {
    RunSound(c, states, events, i);
    RunSound(c, states, events, j);
    IssueNumbers(states[i], c, events[i], states[i + 1]);
    IssueNumbers(states[j], c, events[j], states[j + 1]);
    BudgetIsExact(c, states, events, i + 1, j);
    if forall k | i < k < j :: !Refunds(states[k], events[k]) {
      NoRefundNoLoss(states, events, i + 1, j);
    }
  }

  /** An incident opens with the whole budget. */
  lemma BudgetStartsFull(s: System, c: Config, e: Event)
    requires Enabled(s, c, e) && Sound(s.breaker)
    requires s.breaker.status.incident != Step(s, c, e).breaker.status.incident
    ensures Step(s, c, e).breaker.status.attempts == 0
  {
  }

  ghost predicate Grants(s: System, c: Config, e: Event) {
    e.Tried? && Admit(s.breaker, e.canceled, e.permit, e.now, e.later, c.interval).1.Granted?
  }

  /** A start admitted while the breaker is open carries the current trial's permit. */
  lemma BlockedStartsCarryProbe(c: Config, states: seq<System>, events: seq<Event>, i: nat)
    requires Executes(c, states, events) && Starts(c, states[0]) && i < |events|
    requires Grants(states[i], c, events[i]) && states[i].breaker.status.blocked && states[0].breaker.probe == None
    ensures events[i].permit == states[i].breaker.probe
    ensures exists k :: 0 <= k < i && Issues(states[k], events[k])
  {
    RunSound(c, states, events, i);
    var k: nat := i;
    while k > 0 && !Issues(states[k - 1], events[k - 1])
      invariant k <= i && states[k].breaker.probe.Some?
    {
      k := k - 1;
    }
  }

  /** Media admitted before an incident opened never closes it. */
  lemma OldMediaNeverCloses(c: Config, states: seq<System>, events: seq<Event>, i: nat, j: nat, k: nat,
        permit: Option<Permit>)
    requires Executes(c, states, events) && Starts(c, states[0]) && i <= j < k < |events|
    requires Grants(states[i], c, events[i])
    requires states[j].breaker.status.incident == None && states[j + 1].breaker.status.incident.Some?
    requires events[k] == Sustained(permit, states[i].breaker.epoch)
    ensures states[k + 1] == states[k]
  {
    EpochsGrow(c, states, events, i, j);
    EpochsGrow(c, states, events, j + 1, k);
    RunSound(c, states, events, j);
  }

  ghost predicate Stuck(b: Breaker) {
    b.status.blocked && b.status.exhausted && b.probe == None
  }

  /** An exhausted breaker stays exhausted until an operator rearms it. */
  lemma {:induction false} OnlyRearmUnsticks(c: Config, states: seq<System>, events: seq<Event>, i: nat, j: nat)
    requires Executes(c, states, events) && Starts(c, states[0]) && i <= j < |states|
    requires Stuck(states[i].breaker) && forall k | i <= k < j :: !events[k].Rearmed?
    ensures Stuck(states[j].breaker)
    decreases j
  {
    if i < j {
      OnlyRearmUnsticks(c, states, events, i, j - 1);
      RunSound(c, states, events, j - 1);
    }
  }

  // ---------------------------------------------------------------------------
  // Pacing
  // ---------------------------------------------------------------------------

  /** Clock readings never go back: each admission attempt reads the clock after every earlier one. */
  ghost predicate Monotone(events: seq<Event>) {
    forall i, j | 0 <= i < j < |events| && events[i].Tried? && events[j].Tried? :: events[i].later <= events[j].now
  }

  lemma {:induction false} NextStartHolds(c: Config, states: seq<System>, events: seq<Event>, i: nat, j: nat)
    requires Executes(c, states, events) && Monotone(events) && i < j < |states|
    requires Grants(states[i], c, events[i])
    ensures states[j].breaker.nextStart >= events[i].later + c.interval
    decreases j
  {
    if j > i + 1 {
      NextStartHolds(c, states, events, i, j - 1);
    }
  }

  /** Two starts are at least the interval apart. */
  lemma StartsArePaced(c: Config, states: seq<System>, events: seq<Event>, i: nat, j: nat)
    requires Executes(c, states, events) && Monotone(events) && i < j < |events|
    requires Grants(states[i], c, events[i]) && Grants(states[j], c, events[j])
    ensures events[j].now >= events[i].later + c.interval
  {
    NextStartHolds(c, states, events, i, j);
  }

  /** Positions of starts in a run, in order. */
  ghost predicate AreStarts(c: Config, states: seq<System>, events: seq<Event>, starts: seq<nat>)
    requires Executes(c, states, events)
  {
    && (forall k | 0 <= k < |starts| :: starts[k] < |events| && Grants(states[starts[k]], c, events[starts[k]]))
    && (forall k, m | 0 <= k < m < |starts| :: starts[k] < starts[m])
  }

  lemma {:induction false} StartsSpread(c: Config, states: seq<System>, events: seq<Event>, starts: seq<nat>, k: nat)
    requires Executes(c, states, events) && Monotone(events) && AreStarts(c, states, events, starts) && k < |starts|
    ensures events[starts[k]].later >= events[starts[0]].later + k * c.interval
  {
    if k > 0 {
      StartsSpread(c, states, events, starts, k - 1);
      StartsArePaced(c, states, events, starts[k - 1], starts[k]);
      assert k * c.interval == (k - 1) * c.interval + c.interval;
    }
  }

  lemma QuotientBound(k: nat, w: nat, d: nat)
    requires d > 0 && k * d <= w
    ensures k <= w / d
  {
    assert (w / d + 1 - k) * d == w / d * d + d - k * d > 0;
  }

  /** A window of length w holds at most w / interval + 1 starts. */
  lemma WindowBound(c: Config, states: seq<System>, events: seq<Event>, starts: seq<nat>, from: int, w: nat)
    requires Executes(c, states, events) && Monotone(events) && AreStarts(c, states, events, starts) && c.interval > 0
    requires forall k | 0 <= k < |starts| :: from <= events[starts[k]].later <= from + w
    ensures |starts| <= w / c.interval + 1
  {
    if |starts| > 0 {
      var last := |starts| - 1;
      StartsSpread(c, states, events, starts, last);
      QuotientBound(last, w, c.interval);
    }
  }
}
