/**
 Guarded operations against the state file: every operation loads it, saves the new base before the native write and
 alerts around it, and may be interrupted at any point, in the middle of a save or of the native write.
 */
module QuotaCrash {
  import opened Prelude
  import opened QuotaAlerts
  import opened Quota
  import opened StateSlots

  datatype Disk = Disk(sizes: Sizes, slots: Slots)

  /** An operation that extends `target` up to `end`; only a write at the start of the log begins it again. */
  datatype Guarded = Guarded(target: Option<nat>, end: nat, walReset: bool) {
    predicate WellAimed() {
      (target.Some? ==> target.value < 6) && (walReset ==> target == Some(WAL))
    }
  }

  /** Where the process is in an operation: `from` is the space it was admitted in. */
  datatype Stage = Idle | Passed(g: Guarded) | Going(g: Guarded, from: Space) | Refusing

  datatype System = System(disk: Disk, stage: Stage)

  /** Each save is cut off after `cut` bytes; one that is not whole ends the process, as Stop does anywhere. */
  datatype Event =
    | Start(g: Guarded)
    | SaveBase(cut: nat)
    | KeepBase
    | SaveAlerts(alerts: Alerts, cut: nat)
    | Grow(written: nat)
    | Shrink(file: nat, size: nat)
    | Stop

  /** The space that the next operation loads. */
  function Loaded(codec: Codec, d: Disk): Option<Space> {
    var r := Newest(codec, d.slots);
    if r.Some? && r.value.limit > 0 && r.value.base >= 0 then Some(Space(d.sizes, r.value.limit, r.value.base))
    else None
  }

  predicate Admitted(s: Space, g: Guarded)
    requires g.WellAimed()
  {
    GuardAdmits(s, g.target, g.end, g.walReset)
  }

  ghost predicate Saved(codec: Codec, d: Disk, base: nat, alerts: Alerts, cut: nat, d': Disk)
    requires Lawful(codec)
  {
    && Newest(codec, d.slots).Some? && d'.sizes == d.sizes
    && Saves(codec, d.slots, Draft(Newest(codec, d.slots).value.limit, base, alerts, cut), d'.slots)
  }

  ghost predicate Moves(codec: Codec, x: System, e: Event, y: System)
    requires Lawful(codec)
  {
    var loaded := Loaded(codec, x.disk);
    && loaded.Some?
    && var s := loaded.value;
    match e
    case Start(g) =>
      x.stage.Idle? && g.WellAimed() && y == System(x.disk, if Admitted(s, g) then Passed(g) else Refusing)
    case SaveBase(cut) =>
      && x.stage.Passed? && Based(s, x.stage.g.walReset) != s
      && Saved(codec, x.disk, Based(s, true).base, Newest(codec, x.disk.slots).value.alerts, cut, y.disk)
      && y.stage == if cut == SLOT then Going(x.stage.g, s) else Idle
    case KeepBase =>
      x.stage.Passed? && Based(s, x.stage.g.walReset) == s && y == System(x.disk, Going(x.stage.g, s))
    case SaveAlerts(alerts, cut) =>
      && !x.stage.Passed? && Saved(codec, x.disk, s.base, alerts, cut, y.disk)
      && y.stage == if cut == SLOT then x.stage else Idle
    case Grow(written) =>
      && x.stage.Going? && x.stage.g.WellAimed() && x.stage.g.target.Some?
      && var t := x.stage.g.target.value;
         Reached(s.sizes[t], x.stage.g.end, written) && y == x.(disk := x.disk.(sizes := s.sizes[t := written]))
    case Shrink(file, size) =>
      x.stage.Idle? && file < 6 && y == x.(disk := x.disk.(sizes := TruncateSpace(s, file, size).sizes))
    case Stop => y == x.(stage := Idle)
  }

  ghost predicate Executes(codec: Codec, systems: seq<System>, events: seq<Event>)
    requires Lawful(codec)
  {
    && |systems| == |events| + 1 && systems[0].stage.Idle?
    && forall i | 0 <= i < |events| :: Moves(codec, systems[i], events[i], systems[i + 1])
  }

  // ---------------------------------------------------------------------------
  // The reservation survives
  // ---------------------------------------------------------------------------

  /** The file holds this space whole, and it reserves its checkpoint. */
  ghost predicate Holds(codec: Codec, d: Disk, s: Space, r: Record) {
    && Good(codec, d.slots, r) && r.limit == s.limit && r.base == s.base && d.sizes == s.sizes
    && Secured(s) && Aligned(s)
  }

  /** What the space of an operation under way is in terms of the one it was admitted in. */
  ghost predicate Along(s: Space, stage: Stage) {
    match stage
    case Passed(g) => g.WellAimed() && Admitted(s, g)
    case Going(g, from) =>
      && g.WellAimed() && Admitted(from, g) && Secured(from) && Aligned(from)
      && var n := if g.target.Some? then s.sizes[g.target.value] else 0;
         && (g.target.Some? ==> Reached(from.sizes[g.target.value], g.end, n))
         && s == GuardSpace(from, g.target, g.end, g.walReset, n)
    case _ => true
  }

  lemma HoldsIsLoaded(codec: Codec, d: Disk, s: Space, r: Record)
    requires Holds(codec, d, s, r)
    ensures Newest(codec, d.slots) == Some(r) && Loaded(codec, d) == Some(s)
  {
    GoodIsNewest(codec, d.slots, r);
  }

  /** An admitted operation that starts the log again reserves the checkpoint from the new base. */
  lemma BasedIsSecured(s: Space, g: Guarded)
    requires Secured(s) && Aligned(s) && g.WellAimed() && Admitted(s, g)
    ensures Secured(Based(s, g.walReset)) && Aligned(Based(s, g.walReset))
  {
    if g.walReset {
      SumUpdate(s.sizes, WAL, Max(s.sizes[WAL], Rounded(g.end)));
    }
  }

  /** A save, cut anywhere, leaves the old base or the new one. */
  lemma SaveHolds(codec: Codec, d: Disk, s: Space, r: Record, base: nat, alerts: Alerts, cut: nat, d': Disk)
    returns (s': Space, r': Record)
    requires Lawful(codec) && Holds(codec, d, s, r) && Saved(codec, d, base, alerts, cut, d')
    requires Secured(s.(base := base)) && Aligned(s.(base := base))
    ensures Holds(codec, d', s', r') && (s' == s || s' == s.(base := base))
    ensures cut == SLOT ==> s' == s.(base := base)
  {
    GoodIsNewest(codec, d.slots, r);
    var next := Stamp(Draft(r.limit, base, alerts, cut), r.sequence + 1);
    SaveIsAtomic(codec, d.slots, r, next, cut);
    if Good(codec, d'.slots, next) {
      s', r' := s.(base := base), next;
    } else {
      s', r' := s, r;
    }
  }

  lemma GrowHolds(s: Space, g: Guarded, from: Space, written: nat)
    requires Along(s, Going(g, from)) && g.target.Some? && Reached(s.sizes[g.target.value], g.end, written)
    ensures var t := s.(sizes := s.sizes[g.target.value := written]);
      Secured(t) && Aligned(t) && t.limit == s.limit && Along(t, Going(g, from))
  {
    var t := s.(sizes := s.sizes[g.target.value := written]);
    assert from.sizes[g.target.value := s.sizes[g.target.value]][g.target.value := written] ==
      from.sizes[g.target.value := written];
    GuardKeeps(from, g.target, g.end, g.walReset, written);
  }

  lemma GoingBegins(s: Space, g: Guarded)
    requires g.WellAimed() && Admitted(s, g) && Secured(s) && Aligned(s)
    ensures Along(Based(s, g.walReset), Going(g, s))
  {
    if g.target.Some? {
      var t := g.target.value;
      assert s.sizes[t := s.sizes[t]] == s.sizes;
    }
  }

  lemma StepHolds(codec: Codec, x: System, e: Event, y: System, s: Space, r: Record) returns (s': Space, r': Record)
    requires Lawful(codec) && Holds(codec, x.disk, s, r) && Along(s, x.stage) && Moves(codec, x, e, y)
    ensures Holds(codec, y.disk, s', r') && Along(s', y.stage) && s'.limit == s.limit
  {
    HoldsIsLoaded(codec, x.disk, s, r);
    s', r' := s, r;
    match e
    case SaveBase(cut) =>
      BasedIsSecured(s, x.stage.g);
      GoingBegins(s, x.stage.g);
      s', r' := SaveHolds(codec, x.disk, s, r, Based(s, true).base, r.alerts, cut, y.disk);
    case KeepBase => GoingBegins(s, x.stage.g);
    case SaveAlerts(alerts, cut) =>
      s', r' := SaveHolds(codec, x.disk, s, r, s.base, alerts, cut, y.disk);
    case Grow(written) =>
      GrowHolds(s, x.stage.g, x.stage.from, written);
      s' := s.(sizes := s.sizes[x.stage.g.target.value := written]);
    case Shrink(file, size) =>
      TruncateKeeps(s, file, size);
      s' := TruncateSpace(s, file, size);
    case _ =>
  }

  lemma {:induction false} RunHolds(codec: Codec, systems: seq<System>, events: seq<Event>, s: Space, r: Record, n: nat)
    returns (s': Space, r': Record)
    requires Lawful(codec) && Executes(codec, systems, events) && n <= |events| && Holds(codec, systems[0].disk, s, r)
    ensures Holds(codec, systems[n].disk, s', r') && Along(s', systems[n].stage) && s'.limit == s.limit
  {
    if n == 0 {
      s', r' := s, r;
    } else {
      s', r' := RunHolds(codec, systems, events, s, r, n - 1);
      s', r' := StepHolds(codec, systems[n - 1], events[n - 1], systems[n], s', r');
    }
  }

  /**
   Wherever operations are interrupted, in the middle of a save or of a write, the state file loads, and the checkpoint
   of the whole log is admitted.
   */
  lemma CheckpointSurvivesCrashes(codec: Codec, systems: seq<System>, events: seq<Event>, s: Space, r: Record,
        n: nat, end: nat)
    requires Lawful(codec) && Executes(codec, systems, events) && n <= |events| && Holds(codec, systems[0].disk, s, r)
    ensures var loaded := Loaded(codec, systems[n].disk);
      && loaded.Some? && loaded.value.limit == s.limit && Secured(loaded.value)
      && (end <= loaded.value.base + loaded.value.sizes[WAL] ==> GuardAdmits(loaded.value, Some(MAIN), end, false))
  {
    var s', r' := RunHolds(codec, systems, events, s, r, n);
    HoldsIsLoaded(codec, systems[n].disk, s', r');
    if end <= s'.base + s'.sizes[WAL] {
      SecuredAdmits(s', end);
    }
  }
}
