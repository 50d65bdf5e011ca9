/**
 Which operations the physical quota admits, in terms of what they would leave on the disk, and what a refusal or a
 nearly full disk reports.
 */
module QuotaAdmission {
  import opened Prelude
  import opened QuotaAlerts
  import opened Alerting
  import opened Quota

  /** Sizes are rounded up to whole blocks of 4096 bytes, and no further. */
  lemma RoundedIs(n: nat)
    ensures Rounded(n) % 4096 == 0 && n <= Rounded(n) < n + 4096
  {
  }

  /** What the files come to once the target reaches its end. */
  ghost function After(s: Space, target: nat, end: nat): int
    requires target < 6
  {
    Sum(s.sizes) + Max(0, Rounded(end) - s.sizes[target])
  }

  lemma GrownSum(s: Space, target: nat, end: nat)
    requires target < 6
    ensures Sum(Grown(s, Some(target), end).sizes) == After(s, target, end)
  {
    SumUpdate(s.sizes, target, Max(s.sizes[target], Rounded(end)));
  }

  /** Space a checkpoint of the whole log would still take in the main file. */
  function Pending(s: Space): int {
    Max(0, s.base + s.sizes[WAL] - s.sizes[MAIN])
  }

  /** What is there may always be read, written over and synchronised, while the files are within the limit. */
  lemma NoGrowthAdmittedIff(s: Space, target: Option<nat>, end: nat)
    requires target.Some? ==> target.value < 6 && Rounded(end) <= s.sizes[target.value]
    ensures GuardAdmits(s, target, end, false) <==> Sum(s.sizes) <= s.limit
  {
    if target.Some? {
      GrownSum(s, target.value, end);
    }
  }

  /** The main file may grow into the space reserved for it: only the allocation reserve must stay free. */
  lemma MainGrowthAdmittedIff(s: Space, end: nat)
    requires Rounded(end) > s.sizes[MAIN]
    ensures GuardAdmits(s, Some(MAIN), end, false) <==> After(s, MAIN, end) + 65536 <= s.limit
  {
    GrownSum(s, MAIN, end);
  }

  /** The log may grow only if its checkpoint fits afterwards, with the allocation reserve. */
  lemma LogGrowthAdmittedIff(s: Space, end: nat)
    requires Rounded(end) > s.sizes[WAL]
    ensures GuardAdmits(s, Some(WAL), end, false) <==>
      After(s, WAL, end) + Max(0, s.base + Rounded(end) - s.sizes[MAIN]) + 65536 <= s.limit
  {
    GrownSum(s, WAL, end);
  }

  /** Any other file may grow if the checkpoint that is pending still fits. */
  lemma OtherGrowthAdmittedIff(s: Space, target: nat, end: nat)
    requires target < 6 && target != MAIN && target != WAL && Rounded(end) > s.sizes[target]
    ensures GuardAdmits(s, Some(target), end, false) <==> After(s, target, end) + Pending(s) + 65536 <= s.limit
  {
    GrownSum(s, target, end);
  }

  /** Starting the log again moves the base, so the checkpoint of the new log must fit whatever it overwrites. */
  lemma LogRestartAdmittedIff(s: Space, end: nat)
    requires s.base != s.sizes[MAIN]
    ensures GuardAdmits(s, Some(WAL), end, true) <==>
      After(s, WAL, end) + Max(s.sizes[WAL], Rounded(end)) + 65536 <= s.limit
  {
    GrownSum(Based(s, true), WAL, end);
  }

  /** Everything but this file is the same. */
  predicate OnlyFile(s: Space, t: Space, target: nat) {
    t.limit == s.limit && forall i: nat | i < 6 && i != target :: t.sizes[i] == s.sizes[i]
  }

  /** An admitted write leaves the file as the write left it; only a restart of the log moves the base. */
  lemma WriteLands(s: Space, target: nat, end: nat, walReset: bool, written: nat)
    requires target < 6 && GuardAdmits(s, Some(target), end, walReset)
    ensures var t := GuardSpace(s, Some(target), end, walReset, written);
      OnlyFile(s, t, target) && t.sizes[target] == written && t.base == if walReset then s.sizes[MAIN] else s.base
  {
  }

  /** A shrinking truncate gives back what lies behind the new end, and nothing before it. */
  lemma ShrinkFrees(s: Space, target: nat, size: nat)
    requires target < 6 && Rounded(size) <= s.sizes[target]
    ensures var t := TruncateSpace(s, target, size);
      OnlyFile(s, t, target) && t.base == s.base && t.sizes[target] == Rounded(size)
      && Sum(t.sizes) == Sum(s.sizes) - (s.sizes[target] - Rounded(size))
  {
    SumUpdate(s.sizes, target, Rounded(size));
  }

  /** Giving space back never makes an operation on another file be refused. */
  lemma ShrinkRefusesNothing(s: Space, target: nat, size: nat, other: Option<nat>, end: nat)
    requires target < 6 && Rounded(size) <= s.sizes[target]
    requires other.Some? ==> other.value < 6 && other.value != target
    requires GuardAdmits(s, other, end, false)
    ensures GuardAdmits(TruncateSpace(s, target, size), other, end, false)
  {
    var t := TruncateSpace(s, target, size);
    ShrinkFrees(s, target, size);
    if other.Some? {
      GrownSum(s, other.value, end);
      GrownSum(t, other.value, end);
    }
  }

  /** A refused operation leaves files and base alone, and raises the alarm. */
  lemma RefusalAlarms(s: Space, a: Alerts, target: Option<nat>, end: nat, walReset: bool, written: nat)
    requires (target.Some? ==> target.value < 6) && !GuardAdmits(s, target, end, walReset)
    ensures GuardSpace(s, target, end, walReset, written) == s
    ensures var t := GuardAlerts(s, a, target, end, walReset, written);
      && t.full.pending && t.exhausted
      && (!a.full.pending || t.episode != a.episode ==> JustRaised(t.full, Reserved(s)))
  {
    SpentAlarms(a, s.limit, Reserved(s), true);
  }

  /** An admitted operation after which nine tenths are reserved leaves the warning pending; at the limit the alarm. */
  lemma NearlyFullWarns(s: Space, a: Alerts, target: Option<nat>, end: nat, walReset: bool, written: nat)
    requires (target.Some? ==> target.value < 6) && GuardAdmits(s, target, end, walReset)
    requires Sum(GuardSpace(s, target, end, walReset, written).sizes) <= s.limit
    ensures var reserved := Reserved(GuardSpace(s, target, end, walReset, written));
      var t := GuardAlerts(s, a, target, end, walReset, written);
      && (reserved >= s.limit * 9 / 10 ==> t.warn.pending)
      && (reserved >= s.limit ==> t.full.pending && t.exhausted)
  {
    var before := Observe(a, s.limit, Reserved(Grown(Based(s, walReset), target, end)), false);
    var reserved := Reserved(GuardSpace(s, target, end, walReset, written));
    if reserved >= s.limit * 9 / 10 {
      HighWarns(before, s.limit, reserved, false);
    }
    if reserved >= s.limit {
      SpentAlarms(before, s.limit, reserved, false);
    }
  }

  /** An operation projected to nine tenths warns ahead of the write, even if it then writes less or fails. */
  lemma ProjectionWarns(s: Space, a: Alerts, target: Option<nat>, end: nat, walReset: bool, written: nat)
    requires (target.Some? ==> target.value < 6) && GuardAdmits(s, target, end, walReset)
    requires Reserved(Grown(Based(s, walReset), target, end)) >= s.limit * 9 / 10
    ensures GuardAlerts(s, a, target, end, walReset, written).warn.pending
  {
    var projected := Reserved(Grown(Based(s, walReset), target, end));
    HighWarns(a, s.limit, projected, false);
    var before := Observe(a, s.limit, projected, false);
    var after := GuardSpace(s, target, end, walReset, written);
    if Sum(after.sizes) <= after.limit && Reserved(after) >= s.limit * 9 / 10 {
      HighWarns(before, s.limit, Reserved(after), false);
    }
  }
}
