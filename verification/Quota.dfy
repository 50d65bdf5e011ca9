/**
 Physical quota of the catalogue database: admission of every operation that can extend
 a file, with checkpoint space reserved before the write-ahead log grows.

 Each file is represented by its size rounded to allocation blocks.
 */
module Quota {
  import opened Prelude
  import opened QuotaAlerts

  const BLOCK := 4096
  const RESERVE := 65536
  const STATE_SIZE := 8192

  // Positions in the list of files.
  const MAIN := 0
  const WAL := 1
  const STATE := 4

  datatype Usage = Usage(files: int, reserved: int)

  function Rounded(n: nat): nat {
    if n == 0 then 0 else (n + BLOCK - 1) / BLOCK * BLOCK
  }

  type Sizes = s: seq<nat> | |s| == 6 witness [0, 0, 0, 0, 0, 0]

  function Sum(sizes: seq<nat>): nat {
    if sizes == [] then 0 else Sum(sizes[..|sizes| - 1]) + sizes[|sizes| - 1]
  }

  /** Sizes of the files, the limit, and the main file's size when the log last started over. */
  datatype Space = Space(sizes: Sizes, limit: nat, base: nat)

  /** All files, the worst copy of the log into the main file still to come, and the free reserve. */
  function Reserved(s: Space): int {
    Sum(s.sizes) + Max(0, s.base + s.sizes[WAL] - s.sizes[MAIN]) + RESERVE
  }

  function UsageOf(s: Space): Usage {
    Usage(Sum(s.sizes), Reserved(s))
  }

  /** The space once `target` reaches `end`. */
  function Grown(s: Space, target: Option<nat>, end: nat): Space
    requires target.Some? ==> target.value < 6
  {
    if target == None then s
    else s.(sizes := s.sizes[target.value := Max(s.sizes[target.value], Rounded(end))])
  }

  /** Restarting the log makes the main file's present size the new base. */
  function Based(s: Space, walReset: bool): Space {
    if walReset then s.(base := s.sizes[MAIN]) else s
  }

  /** Whether an operation may extend `target` of s up to `end`; `oldBase` is the base before it. */
  predicate Admits(s: Space, oldBase: nat, target: Option<nat>, end: nat)
    requires target.Some? ==> target.value < 6
  {
    var u := UsageOf(Grown(s, target, end));
    var grows := u.files > Sum(s.sizes);
    && (u.reserved <= s.limit
        || (!grows && s.base == oldBase)
        || (target == Some(MAIN) && u.files + RESERVE <= s.limit))
    && u.files <= s.limit
    && (grows ==> u.files + RESERVE <= s.limit)
  }

  predicate GuardAdmits(s: Space, target: Option<nat>, end: nat, walReset: bool)
    requires target.Some? ==> target.value < 6
  {
    Admits(Based(s, walReset), s.base, target, end)
  }

  /** Space after a guarded operation; `written` is the size an admitted operation leaves its target with. */
  function GuardSpace(s: Space, target: Option<nat>, end: nat, walReset: bool, written: nat): Space
    requires target.Some? ==> target.value < 6
  {
    if !GuardAdmits(s, target, end, walReset) then s
    else
      var based := Based(s, walReset);
      if target == None then based else based.(sizes := based.sizes[target.value := written])
  }

  /** Alerts after a guarded operation: refused, or observed before and after the native operation. */
  function GuardAlerts(s: Space, a: Alerts, target: Option<nat>, end: nat, walReset: bool, written: nat): Alerts
    requires target.Some? ==> target.value < 6
  {
    if !GuardAdmits(s, target, end, walReset) then Observe(a, s.limit, Reserved(s), true)
    else
      var before := Observe(a, s.limit, Reserved(Grown(Based(s, walReset), target, end)), false);
      var after := GuardSpace(s, target, end, walReset, written);
      if Sum(after.sizes) > after.limit then before else Observe(before, s.limit, Reserved(after), false)
  }

  /** A truncation that does not extend the file is not guarded. */
  function TruncateSpace(s: Space, target: nat, size: nat): Space
    requires target < 6
  {
    s.(sizes := s.sizes[target := Min(s.sizes[target], Rounded(size))])
  }

  // ---------------------------------------------------------------------------
  // The quota object
  // ---------------------------------------------------------------------------

  datatype Outcome = Full | Native(code: int) | IoError

  /** What the state file holds. */
  datatype Stored = Stored(base: nat, alerts: Alerts)

  class PhysicalQuota {
    const limit: nat
    var sizes: Sizes
    var base: nat
    var alerts: Alerts
    var stored: Stored

    function Model(): Space
      reads this
    {
      Space(sizes, limit, base)
    }

    /** Nothing that changed in memory is missing from the state file. */
    predicate Valid()
      reads this
    {
      stored == Stored(base, alerts)
    }

    constructor (space: Space, alerts: Alerts)
      ensures Valid() && Model() == space && this.alerts == alerts
    {
      limit, sizes, base := space.limit, space.sizes, space.base;
      this.alerts := alerts;
      stored := Stored(space.base, alerts);
    }

    method Save()
      modifies this`stored
      ensures Valid()
    {
      stored := Stored(base, alerts);
    }

    /** One walk over the files yields both the current usage and the usage once `target` reaches `end`. */
    method ProjectedUsage(target: Option<nat>, end: nat) returns (u: Usage, current: Usage)
      requires target.Some? ==> target.value < 6
      ensures current == UsageOf(Model())
      ensures u == UsageOf(Grown(Model(), target, end))
    {
      var files, main, wal, length := 0, 0, 0, 0;
      assert sizes[..0] == [];
      for i := 0 to 6
        invariant files == Sum(sizes[..i])
        invariant i > MAIN ==> main == sizes[MAIN]
        invariant i > WAL ==> wal == sizes[WAL]
        invariant target.Some? && i > target.value ==> length == sizes[target.value]
      {
        var n := sizes[i];
        files := files + n;
        assert sizes[..i + 1][..i] == sizes[..i];
        if i == MAIN {
          main := n;
        } else if i == WAL {
          wal := n;
        }
        if target == Some(i) {
          length := n;
        }
      }
      assert sizes[..6] == sizes;
      current := Usage(files, files + Max(0, base + wal - main) + RESERVE);
      if target == None {
        return current, current;
      }
      var growth := Max(0, Rounded(end) - length);
      SumUpdate(sizes, target.value, Max(length, Rounded(end)));
      if target == Some(MAIN) {
        main := main + growth;
      } else if target == Some(WAL) {
        wal := wal + growth;
      }
      u := Usage(files + growth, files + growth + Max(0, base + wal - main) + RESERVE);
    }

    method ObserveUsage(u: Usage, denied: bool)
      requires Valid()
      modifies this`alerts, this`stored
      ensures Valid() && alerts == Observe(old(alerts), limit, u.reserved, denied)
    {
      var changed := false;
      if (denied || u.reserved >= limit) && !alerts.exhausted {
        alerts := alerts.(exhausted := true);
        changed := true;
      }
      if !denied && u.reserved < limit * 85 / 100 && alerts.exhausted {
        alerts := alerts.(exhausted := false);
        changed := true;
      }
      if u.reserved < limit * 85 / 100 && !alerts.armed {
        alerts := alerts.(armed := true);
        changed := true;
      }
      if u.reserved >= limit * 9 / 10 || denied {
        if alerts.armed && (!alerts.warn.pending || alerts.warn.delivered)
           && (!alerts.full.pending || alerts.full.delivered) {
          alerts := alerts.(episode := alerts.episode + 1, warn := NO_ALERT, full := NO_ALERT, armed := false);
          changed := true;
        }
        if u.reserved >= limit * 9 / 10 && !alerts.warn.pending {
          alerts := alerts.(warn := Raised(u.reserved));
          changed := true;
        }
      }
      if (denied || u.reserved >= limit) && !alerts.full.pending {
        alerts := alerts.(full := Raised(u.reserved));
        changed := true;
      }
      if changed {
        Save();
      }
    }

    /** The admission half of a guarded operation, ahead of the native I/O. */
    method Admit(target: Option<nat>, end: nat, walReset: bool) returns (admitted: bool)
      requires Valid() && (target.Some? ==> target.value < 6)
      modifies this`base, this`alerts, this`stored
      ensures Valid() && admitted == GuardAdmits(old(Model()), target, end, walReset)
      ensures Model() == if admitted then Based(old(Model()), walReset) else old(Model())
      ensures alerts ==
        if admitted then Observe(old(alerts), limit, Reserved(Grown(Model(), target, end)), false)
        else Observe(old(alerts), limit, Reserved(Model()), true)
    {
      var oldBase := base;
      if walReset {
        if base != sizes[MAIN] {
          base := sizes[MAIN];
        }
      }
      var u, current := ProjectedUsage(target, end);
      var grows := u.files > current.files;
      admitted := u.reserved <= limit || (!grows && base == oldBase)
                  || (target == Some(MAIN) && u.files + RESERVE <= limit);
      if !admitted || u.files > limit || (grows && u.files + RESERVE > limit) {
        base := oldBase;
        var actual, _ := ProjectedUsage(None, 0);
        ObserveUsage(actual, true);
        return false;
      }
      if base != oldBase {
        Save();
      }
      ObserveUsage(u, false);
    }

    /** `written` and `code` are the size and the result code the native operation leaves. */
    method Guard(target: Option<nat>, end: nat, walReset: bool, written: nat, code: int) returns (result: Outcome)
      requires Valid() && (target.Some? ==> target.value < 6)
      modifies this
      ensures Valid()
      ensures Model() == GuardSpace(old(Model()), target, end, walReset, written)
      ensures alerts == GuardAlerts(old(Model()), old(alerts), target, end, walReset, written)
      ensures result ==
        if !GuardAdmits(old(Model()), target, end, walReset) then Full
        else if Sum(sizes) > limit then IoError else Native(code)
    {
      var admitted := Admit(target, end, walReset);
      if !admitted {
        return Full;
      }
      if target.Some? {
        sizes := sizes[target.value := written];
      }
      var actual, _ := ProjectedUsage(None, 0);
      if actual.files > limit {
        return IoError;
      }
      ObserveUsage(actual, false);
      return Native(code);
    }

    method Truncate(target: nat, size: nat)
      requires Valid() && target < 6
      modifies this
      ensures Valid() && Model() == TruncateSpace(old(Model()), target, size)
      ensures alerts == Observe(old(alerts), limit, Reserved(Model()), false)
    {
      sizes := sizes[target := Min(sizes[target], Rounded(size))];
      var u, _ := ProjectedUsage(None, 0);
      ObserveUsage(u, false);
    }
  }

  // ---------------------------------------------------------------------------
  // Reservation over whole runs
  // ---------------------------------------------------------------------------

  lemma {:induction false} SumUpdate(sizes: seq<nat>, i: nat, n: nat)
    requires i < |sizes|
    ensures Sum(sizes[i := n]) == Sum(sizes) - sizes[i] + n
  {
    var last := |sizes| - 1;
    var updated := sizes[i := n];
    if i == last {
      assert updated[..last] == sizes[..last];
    } else {
      assert updated[..last] == sizes[..last][i := n];
      SumUpdate(sizes[..last], i, n);
    }
  }

  datatype Op =
    | Write(target: nat, offset: nat, length: nat, written: nat)
    | Extend(target: nat, end: nat, written: nat)
    | Sync
    | Cut(target: nat, size: nat)

  ghost predicate Reached(before: nat, end: nat, written: nat) {
    before <= written <= Max(before, Rounded(end)) && written % BLOCK == 0
  }

  /** Native I/O extends a file at most to the end that was admitted, and only truncation shrinks one. */
  ghost predicate Legal(s: Space, op: Op) {
    match op
    case Write(t, offset, length, written) => t < 6 && Reached(s.sizes[t], offset + length, written)
    case Extend(t, end, written) => t < 6 && Reached(s.sizes[t], end, written)
    case Sync => true
    case Cut(t, _) => t < 6
  }

  ghost function Apply(s: Space, op: Op): Space
    requires Legal(s, op)
  {
    match op
    case Write(t, offset, length, written) => GuardSpace(s, Some(t), offset + length, t == WAL && offset == 0, written)
    case Extend(t, end, written) => GuardSpace(s, Some(t), end, false, written)
    case Sync => GuardSpace(s, None, 0, false, 0)
    case Cut(t, size) => TruncateSpace(s, t, size)
  }

  ghost predicate Executes(states: seq<Space>, ops: seq<Op>) {
    && |states| == |ops| + 1
    && forall i | 0 <= i < |ops| :: Legal(states[i], ops[i]) && states[i + 1] == Apply(states[i], ops[i])
  }

  /** Files, pending checkpoint copy and reserve all fit. */
  ghost predicate Secured(s: Space) {
    Reserved(s) <= s.limit
  }

  /** Files and reserve fit, but a checkpoint may not. */
  ghost predicate Headroom(s: Space) {
    Sum(s.sizes) + RESERVE <= s.limit
  }

  /** Sizes are whole allocation blocks. */
  ghost predicate Aligned(s: Space) {
    s.base % BLOCK == 0 && forall i | 0 <= i < 6 :: s.sizes[i] % BLOCK == 0
  }

  ghost predicate Keeps(s: Space, s': Space) {
    && s'.limit == s.limit
    && (Secured(s) ==> Secured(s'))
    && (Headroom(s) ==> Headroom(s'))
    && (Aligned(s) ==> Aligned(s'))
  }

  lemma GuardKeeps(s: Space, target: Option<nat>, end: nat, walReset: bool, written: nat)
    requires target.Some? ==>
      target.value < 6 && Reached(s.sizes[target.value], end, written)
    requires walReset ==> target == Some(WAL)
    ensures Keeps(s, GuardSpace(s, target, end, walReset, written))
  {
    if target.Some? {
      SumUpdate(s.sizes, target.value, written);
      SumUpdate(s.sizes, target.value, Max(s.sizes[target.value], Rounded(end)));
    }
  }

  lemma TruncateKeeps(s: Space, target: nat, size: nat)
    requires target < 6
    ensures Keeps(s, TruncateSpace(s, target, size))
  {
    var n := Rounded(size);
    assert n % BLOCK == 0;
    SumUpdate(s.sizes, target, Min(s.sizes[target], n));
  }

  /** The reservation is inductive, and so is the headroom alone. */
  lemma ReservationKept(s: Space, op: Op)
    requires Legal(s, op)
    ensures Keeps(s, Apply(s, op))
  {
    match op
    case Write(t, offset, length, written) => GuardKeeps(s, Some(t), offset + length, t == WAL && offset == 0, written);
    case Extend(t, end, written) => GuardKeeps(s, Some(t), end, false, written);
    case Sync => GuardKeeps(s, None, 0, false, 0);
    case Cut(t, size) => TruncateKeeps(s, t, size);
  }

  /** In every run from a state with headroom the files and the reserve stay within the limit. */
  lemma {:induction false} RunStaysWithinLimit(states: seq<Space>, ops: seq<Op>, i: nat)
    requires Executes(states, ops) && i < |states| && Headroom(states[0]) && Aligned(states[0])
    ensures Sum(states[i].sizes) + RESERVE <= states[0].limit == states[i].limit
    ensures Aligned(states[i]) && (Secured(states[0]) ==> Secured(states[i]))
  {
    if i > 0 {
      RunStaysWithinLimit(states, ops, i - 1);
      ReservationKept(states[i - 1], ops[i - 1]);
    }
  }

  lemma RoundedFits(end: nat, bound: nat)
    requires end <= bound && bound % BLOCK == 0
    ensures Rounded(end) <= bound
  {
  }

  /** Wherever a run from a reserved state has got to, copying the log back is never refused. */
  lemma CheckpointNeverRefused(states: seq<Space>, ops: seq<Op>, i: nat, end: nat)
    requires Executes(states, ops) && i < |states| && Secured(states[0]) && Aligned(states[0])
    requires end <= states[i].base + states[i].sizes[WAL]
    ensures GuardAdmits(states[i], Some(MAIN), end, false)
  {
    RunStaysWithinLimit(states, ops, i);
    SecuredAdmits(states[i], end);
  }

  lemma SecuredAdmits(s: Space, end: nat)
    requires Secured(s) && Aligned(s) && end <= s.base + s.sizes[WAL]
    ensures GuardAdmits(s, Some(MAIN), end, false)
  {
    RoundedFits(end, s.base + s.sizes[WAL]);
    SumUpdate(s.sizes, MAIN, Max(s.sizes[MAIN], Rounded(end)));
  }

  /** With headroom only, the checkpoint that copies the whole log is admitted exactly when it is reserved. */
  lemma CheckpointAdmittedIff(s: Space)
    requires Headroom(s) && Aligned(s)
    ensures GuardAdmits(s, Some(MAIN), s.base + s.sizes[WAL], false) <==> Secured(s)
  {
    var end := s.base + s.sizes[WAL];
    RoundedFits(end, end);
    SumUpdate(s.sizes, MAIN, Max(s.sizes[MAIN], end));
  }

  // ---------------------------------------------------------------------------
  // Creation of the quota
  // ---------------------------------------------------------------------------

  /** The space the quota starts from, if the existing files leave room for its own state file. */
  function Create(existing: Sizes, limit: nat): Option<Space> {
    if Sum(existing) + STATE_SIZE + RESERVE > limit then None
    else Some(Space(existing[STATE := STATE_SIZE], limit, existing[MAIN]))
  }

  /** Creation leaves headroom, but reserves the checkpoint only if the log found there fits twice. */
  lemma CreationSecuredIff(existing: Sizes, limit: nat)
    requires existing[STATE] == 0 && Create(existing, limit).Some?
    ensures var s := Create(existing, limit).value;
      && Headroom(s)
      && (Secured(s) <==> Sum(existing) + existing[WAL] + STATE_SIZE + RESERVE <= limit)
  {
    SumUpdate(existing, STATE, STATE_SIZE);
  }

  /** A database with a large log is accepted, and its checkpoint is then refused. */
  lemma CreationMayRefuseCheckpoint(existing: Sizes)
    requires existing == [4096, 262144, 0, 0, 0, 0]
    ensures Create(existing, 524288).Some?
    ensures var s := Create(existing, 524288).value;
      !GuardAdmits(s, Some(MAIN), s.base + s.sizes[WAL], false)
  {
    SumSix(existing);
    CreationSecuredIff(existing, 524288);
    CheckpointAdmittedIff(Create(existing, 524288).value);
  }

  lemma SumSix(s: Sizes)
    ensures Sum(s) == s[0] + s[1] + s[2] + s[3] + s[4] + s[5]
  {
    assert s[..5][..4] == s[..4] && s[..4][..3] == s[..3] && s[..3][..2] == s[..2] && s[..2][..1] == s[..1];
    assert s[..1][..0] == [] && Sum(s[..1]) == s[0];
    assert Sum(s[..2]) == s[0] + s[1];
    assert Sum(s[..3]) == s[0] + s[1] + s[2];
    assert Sum(s[..4]) == s[0] + s[1] + s[2] + s[3];
    assert Sum(s[..5]) == s[0] + s[1] + s[2] + s[3] + s[4];
  }
}
