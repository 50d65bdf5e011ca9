/**
 That the quota alerts are raised, sent and settled: by every observation, and over runs of observations and polls.
 */
module Alerting {
  import opened Prelude
  import opened QuotaAlerts

  /** A new alert with this reading, due at once. */
  predicate JustRaised(a: Alert, reading: int) {
    a.pending && !a.delivered && a.attempts == 0 && a.used == reading && a.retry == 0
  }

  /** Both alerts of the last episode were sent, or never rose. */
  predicate AllSent(a: Alerts) {
    (a.warn.pending ==> a.warn.delivered) && (a.full.pending ==> a.full.delivered)
  }

  /** At nine tenths of the limit the warning is pending: as it was, or with this reading if it is new. */
  lemma HighWarns(a: Alerts, limit: nat, reserved: int, denied: bool)
    requires reserved >= limit * 9 / 10
    ensures var t := Observe(a, limit, reserved, denied);
      && t.warn.pending
      && (!a.warn.pending || t.episode != a.episode ==> JustRaised(t.warn, reserved))
      && (a.warn.pending && t.episode == a.episode ==> t.warn == a.warn)
  {
  }

  /** At the limit, or after a refusal, so is the alarm. */
  lemma SpentAlarms(a: Alerts, limit: nat, reserved: int, denied: bool)
    requires reserved >= limit || denied
    ensures var t := Observe(a, limit, reserved, denied);
      && t.full.pending && t.exhausted
      && (!a.full.pending || t.episode != a.episode ==> JustRaised(t.full, reserved))
      && (a.full.pending && t.episode == a.episode ==> t.full == a.full)
  {
  }

  /** Below those marks no alert rises, whatever episode it is; below 85 percent the monitor is armed again. */
  lemma LowRaisesNothing(a: Alerts, limit: nat, reserved: int)
    requires reserved < limit * 9 / 10 && reserved < limit
    ensures var t := Observe(a, limit, reserved, false);
      && t.episode == a.episode && t.warn == a.warn && t.full == a.full
      && t.armed == (a.armed || reserved < limit * 85 / 100)
      && t.exhausted == (a.exhausted && reserved >= limit * 85 / 100)
  {
  }

  /** An episode begins exactly at a high mark or a refusal, if the monitor is armed and all alerts were sent. */
  lemma EpisodeBeginsIff(a: Alerts, limit: nat, reserved: int, denied: bool)
    requires reserved >= limit * 85 / 100
    ensures var t := Observe(a, limit, reserved, denied);
      && (t.episode != a.episode <==> (reserved >= limit * 9 / 10 || denied) && a.armed && AllSent(a))
      && (t.episode != a.episode ==> t.episode == a.episode + 1 && !t.armed)
  {
  }

  // ---------------------------------------------------------------------------
  // Sending
  // ---------------------------------------------------------------------------

  predicate Waits(a: Alert, now: int) {
    a.pending && !a.delivered && a.retry <= now
  }

  /** A poll takes up an alert exactly when one is due and no message is out: the warning before the alarm. */
  lemma DueIsTakenUp(s: State, limit: nat, now: int)
    requires s.flight == None
    ensures var t := Step(s, limit, Poll(now));
      && (t.flight.Some? <==> Waits(s.alerts.warn, now) || Waits(s.alerts.full, now))
      && (Waits(s.alerts.warn, now) ==>
            && t.flight == Some(Flight(Ninety, s.alerts.episode, s.alerts.warn.attempts))
            && t.alerts.full == s.alerts.full)
      && (!Waits(s.alerts.warn, now) && Waits(s.alerts.full, now) ==>
            && t.flight == Some(Flight(Hundred, s.alerts.episode, s.alerts.full.attempts))
            && t.alerts.warn == s.alerts.warn)
      && t.alerts.episode == s.alerts.episode
  {
  }

  /** While a message is out no other is taken up. */
  lemma OneMessageAtATime(s: State, limit: nat, now: int)
    requires s.flight.Some?
    ensures Step(s, limit, Poll(now)) == s
  {
  }

  lemma {:induction false} PowBounds(n: nat)
    ensures Pow2(n) >= 1
  {
    if n > 0 {
      PowBounds(n - 1);
    }
  }

  /** A message that was sent settles its alert; one that failed is tried again within the hour, not before a second. */
  lemma SentSettles(s: State, limit: nat, now: int, ok: bool)
    requires Valid(s) && s.flight.Some?
    ensures var t := Step(s, limit, Sent(now, ok));
      var before, after := Of(s.alerts, s.flight.value.threshold), Of(t.alerts, s.flight.value.threshold);
      && t.flight == None && after.pending && after.used == before.used && after.attempts == before.attempts
      && (ok ==> after.delivered && after.retry == before.retry)
      && (!ok ==> !after.delivered && now + 1 <= after.retry <= now + 3600)
      && t.alerts == With(s.alerts, s.flight.value.threshold, after)
  {
    PowBounds(Min(s.flight.value.attempts, 12));
  }

  /** The wait doubles with every attempt, up to the hour. */
  lemma RetryDoubles(s: State, limit: nat, now: int)
    requires s.flight.Some? && s.flight.value.attempts < 11
    ensures var f := s.flight.value;
      var later := s.(flight := Some(f.(attempts := f.attempts + 1)));
      var wait := Of(Step(s, limit, Sent(now, false)).alerts, f.threshold).retry - now;
      Of(Step(later, limit, Sent(now, false)).alerts, f.threshold).retry - now == 2 * wait
  {
    PowSmall(s.flight.value.attempts);
  }

  lemma PowSmall(n: nat)
    requires n < 11
    ensures Pow2(n + 1) == 2 * Pow2(n) && Pow2(n + 1) <= 2048
  {
    PowGrows(n + 1, 11);
    assert Pow2(11) == 2048 by {
      assert Pow2(4) == 16 && Pow2(8) == 16 * Pow2(4);
    }
  }

  lemma {:induction false} PowGrows(m: nat, n: nat)
    requires m <= n
    ensures Pow2(m) <= Pow2(n)
  {
    if m < n {
      PowGrows(m, n - 1);
    }
  }

  /** From any valid state with no message out: usage rises to nine tenths, and the next poll sends the warning. */
  lemma HighIsSent(s: State, limit: nat, reserved: int, now: int)
    requires Valid(s) && s.flight == None && reserved >= limit * 9 / 10 && now >= 0
    requires !s.alerts.warn.pending || (s.alerts.armed && AllSent(s.alerts))
    ensures var t := Step(Step(s, limit, Observed(reserved, false)), limit, Poll(now));
      && t.flight.Some? && t.flight.value.threshold == Ninety && t.alerts.warn.used == reserved
      && Step(t, limit, Sent(now, true)).alerts.warn.delivered
  {
    HighWarns(s.alerts, limit, reserved, false);
    var u := Step(s, limit, Observed(reserved, false));
    DueIsTakenUp(u, limit, now);
  }
}
