/** Threshold alerts of the physical quota: at most one episode until usage falls back. */
module QuotaAlerts {
  import opened Prelude

  datatype Alert = Alert(pending: bool, delivered: bool, attempts: nat, retry: int, used: int)

  const NO_ALERT := Alert(false, false, 0, 0, 0)

  function Raised(used: int): Alert {
    Alert(true, false, 0, 0, used)
  }

  datatype Alerts = Alerts(episode: nat, warn: Alert, full: Alert, armed: bool, exhausted: bool)

  predicate Settled(a: Alert) {
    !a.pending || a.delivered
  }

  predicate Low(limit: nat, reserved: int) { reserved < limit * 85 / 100 }

  predicate High(limit: nat, reserved: int) { reserved >= limit * 9 / 10 }

  /** An observation begins a new episode. */
  predicate Begins(a: Alerts, limit: nat, reserved: int, denied: bool) {
    && (High(limit, reserved) || denied)
    && (a.armed || Low(limit, reserved))
    && Settled(a.warn) && Settled(a.full)
  }

  /** What one observation of the reserved space does. */
  function Observe(a: Alerts, limit: nat, reserved: int, denied: bool): Alerts {
    var begins := Begins(a, limit, reserved, denied);
    var spent := denied || reserved >= limit;
    var warn := if begins then NO_ALERT else a.warn;
    var full := if begins then NO_ALERT else a.full;
    Alerts(
      if begins then a.episode + 1 else a.episode,
      if High(limit, reserved) && !warn.pending then Raised(reserved) else warn,
      if spent && !full.pending then Raised(reserved) else full,
      !begins && (a.armed || Low(limit, reserved)),
      spent || (a.exhausted && !Low(limit, reserved)))
  }

  // ---------------------------------------------------------------------------
  // Delivery
  // ---------------------------------------------------------------------------

  datatype Threshold = Ninety | Hundred

  /** A message being sent, with the episode and the attempt count it was composed from. */
  datatype Flight = Flight(threshold: Threshold, episode: nat, attempts: nat)

  datatype State = State(alerts: Alerts, flight: Option<Flight>)

  datatype Event =
    | Observed(reserved: int, denied: bool)
    | Poll(now: int)
    | Sent(now: int, ok: bool)
    | Crash

  function Of(a: Alerts, t: Threshold): Alert {
    if t == Ninety then a.warn else a.full
  }

  function With(a: Alerts, t: Threshold, alert: Alert): Alerts {
    if t == Ninety then a.(warn := alert) else a.(full := alert)
  }

  predicate Due(alert: Alert, now: int) {
    alert.pending && !alert.delivered && alert.retry <= now
  }

  function Pow2(n: nat): nat {
    if n == 0 then 1 else 2 * Pow2(n - 1)
  }

  function TakeUp(a: Alerts, t: Threshold, now: int): State {
    var alert := Of(a, t);
    State(With(a, t, alert.(attempts := alert.attempts + 1, retry := now + 60)),
          Some(Flight(t, a.episode, alert.attempts)))
  }

  function Step(s: State, limit: nat, e: Event): State {
    match e
    case Observed(reserved, denied) => s.(alerts := Observe(s.alerts, limit, reserved, denied))
    case Poll(now) =>
      if s.flight.Some? then s
      else if Due(s.alerts.warn, now) then TakeUp(s.alerts, Ninety, now)
      else if Due(s.alerts.full, now) then TakeUp(s.alerts, Hundred, now)
      else s
    case Sent(now, ok) =>
      if s.flight == None then s
      else
        var f := s.flight.value;
        var alert := Of(s.alerts, f.threshold);
        var after := if ok then alert.(delivered := true)
                     else alert.(retry := now + Min(3600, Pow2(Min(f.attempts, 12))));
        State(With(s.alerts, f.threshold, after), None)
    case Crash => s.(flight := None)
  }

  ghost function Run(s: State, limit: nat, events: seq<Event>): State
    decreases |events|
  {
    if events == [] then s else Run(Step(s, limit, events[0]), limit, events[1..])
  }

  /** The delivery side of the monitor. */
  class AlertMonitor {
    var alerts: Alerts
    var flight: Option<Flight>

    function Model(): State
      reads this
    {
      State(alerts, flight)
    }

    constructor (initial: State)
      ensures Model() == initial
    {
      alerts, flight := initial.alerts, initial.flight;
    }

    /** Picks the next due alert and records the attempt before the message is sent. */
    method PollNext(now: int)
      requires flight == None
      modifies this
      ensures forall limit :: Model() == Step(old(Model()), limit, Poll(now))
    {
      if alerts.warn.pending && !alerts.warn.delivered && alerts.warn.retry <= now {
        flight := Some(Flight(Ninety, alerts.episode, alerts.warn.attempts));
        alerts := alerts.(warn := alerts.warn.(attempts := alerts.warn.attempts + 1, retry := now + 60));
      } else if alerts.full.pending && !alerts.full.delivered && alerts.full.retry <= now {
        flight := Some(Flight(Hundred, alerts.episode, alerts.full.attempts));
        alerts := alerts.(full := alerts.full.(attempts := alerts.full.attempts + 1, retry := now + 60));
      }
    }

    /** Records the result of the message in flight. */
    method Finish(now: int, ok: bool)
      requires flight.Some?
      modifies this
      ensures forall limit :: Model() == Step(old(Model()), limit, Sent(now, ok))
    {
      var f := flight.value;
      var target := if f.threshold == Ninety then alerts.warn else alerts.full;
      if ok {
        target := target.(delivered := true);
      } else {
        target := target.(retry := now + Min(3600, Pow2(Min(f.attempts, 12))));
      }
      if f.threshold == Ninety {
        alerts := alerts.(warn := target);
      } else {
        alerts := alerts.(full := target);
      }
      flight := None;
    }
  }

  const START := State(Alerts(0, NO_ALERT, NO_ALERT, true, false), None)

  /** The alert a message is about is still the undelivered alert of the same episode. */
  ghost predicate Valid(s: State) {
    && (s.flight.Some? ==>
          var f := s.flight.value;
          f.episode == s.alerts.episode && !Settled(Of(s.alerts, f.threshold)))
    && !(s.alerts.warn.delivered && !s.alerts.warn.pending)
    && !(s.alerts.full.delivered && !s.alerts.full.pending)
  }

  lemma {:induction false} RunValid(s: State, limit: nat, events: seq<Event>)
    requires Valid(s)
    ensures Valid(Run(s, limit, events))
    decreases |events|
  {
    if events != [] {
      RunValid(Step(s, limit, events[0]), limit, events[1..]);
    }
  }

  /** Some message about t was sent successfully during the run. */
  ghost predicate Delivers(s: State, limit: nat, events: seq<Event>, t: Threshold)
    decreases |events|
  {
    events != [] &&
    ((events[0].Sent? && events[0].ok && s.flight.Some? && s.flight.value.threshold == t)
     || Delivers(Step(s, limit, events[0]), limit, events[1..], t))
  }

  /** An undelivered alert is never reset: until it is delivered it stays pending, in its episode, with its reading. */
  lemma {:induction false} PendingNeverReset(s: State, limit: nat, events: seq<Event>, t: Threshold)
    requires Valid(s) && !Settled(Of(s.alerts, t)) && !Delivers(s, limit, events, t)
    ensures var s' := Run(s, limit, events);
      && s'.alerts.episode == s.alerts.episode
      && !Settled(Of(s'.alerts, t)) && Of(s'.alerts, t).used == Of(s.alerts, t).used
    decreases |events|
  {
    if events != [] {
      PendingNeverReset(Step(s, limit, events[0]), limit, events[1..], t);
    }
  }

  /** How often the alert t becomes pending for the given episode. */
  ghost function Rises(s: State, limit: nat, events: seq<Event>, t: Threshold, episode: nat): nat
    decreases |events|
  {
    if events == [] then 0
    else
      var s' := Step(s, limit, events[0]);
      var begun := s'.alerts.episode != s.alerts.episode;
      (if (begun || !Of(s.alerts, t).pending) && Of(s'.alerts, t).pending && s'.alerts.episode == episode then 1 else 0)
      + Rises(s', limit, events[1..], t, episode)
  }

  /** Each threshold becomes pending at most once per episode. */
  lemma {:induction false} OneRisePerEpisode(s: State, limit: nat, events: seq<Event>, t: Threshold, episode: nat)
    ensures Rises(s, limit, events, t, episode) <= 1
    ensures s.alerts.episode > episode || (s.alerts.episode == episode && Of(s.alerts, t).pending)
      ==> Rises(s, limit, events, t, episode) == 0
    decreases |events|
  {
    if events != [] {
      OneRisePerEpisode(Step(s, limit, events[0]), limit, events[1..], t, episode);
    }
  }

  /** Some observation found the reserved space below 85% of the limit. */
  ghost predicate FellBack(limit: nat, events: seq<Event>) {
    exists k :: 0 <= k < |events| && events[k].Observed? && Low(limit, events[k].reserved)
  }

  /** After an episode has begun no other begins before the reserved space has fallen back. */
  lemma {:induction false} EpisodesNeedFallBack(s: State, limit: nat, events: seq<Event>)
    requires !s.alerts.armed && Run(s, limit, events).alerts.episode != s.alerts.episode
    ensures FellBack(limit, events)
    decreases |events|
  {
    if events != [] {
      var e := events[0];
      if e.Observed? && Low(limit, e.reserved) {
      } else {
        EpisodesNeedFallBack(Step(s, limit, e), limit, events[1..]);
        var k :| 0 <= k < |events[1..]| && events[1..][k].Observed? && Low(limit, events[1..][k].reserved);
        assert events[k + 1] == events[1..][k];
      }
    }
  }

  /** The two together: between two consecutive episode starts the reserved space fell below 85%. */
  lemma BetweenEpisodes(s: State, limit: nat, first: Event, events: seq<Event>)
    requires Step(s, limit, first).alerts.episode != s.alerts.episode
    requires Run(Step(s, limit, first), limit, events).alerts.episode != Step(s, limit, first).alerts.episode
    ensures FellBack(limit, events)
  {
    EpisodesNeedFallBack(Step(s, limit, first), limit, events);
  }
}
