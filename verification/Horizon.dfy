/**
 The resolution horizon: how far ahead of the audio a slot may be searched for, and why a proof found
 within it is still good when playback gets there. Times are nanoseconds.
 */
module Horizon {
  import opened Prelude
  import opened PlayerState
  import opened GuildPlayers

  const MINUTE := 60_000_000_000
  const LEASE := 10 * MINUTE
  const PREFETCH_HORIZON := LEASE - 2 * MINUTE

  predicate Known(t: Track) {
    !t.live && t.duration > 0
  }

  /** The audio left in the current song; unknown while its length is. */
  function Left(s: Player): Option<nat> {
    if s.deck.current.None? then Some(0)
    else if !Known(s.deck.current.value) then None
    else Some(Max(0, s.deck.current.value.duration - s.tape.confirmed))
  }

  function Total(q: Queue): int {
    if q == [] then 0 else Total(q[..|q| - 1]) + q[|q| - 1].track.duration
  }

  ghost predicate AllKnown(q: Queue) {
    forall e | e in q :: Known(e.track)
  }

  /** The audio ahead of a slot, by prefix sums. */
  function Eta(s: Player, i: nat): int
    requires i <= |s.deck.queue| && Left(s).Some?
  {
    Left(s).value + Total(s.deck.queue[..i])
  }

  /** Everything ahead of slot i has a known length, and together less than the horizon. */
  ghost predicate Reaches(s: Player, horizon: int, i: nat) {
    i <= |s.deck.queue| && Left(s).Some? && AllKnown(s.deck.queue[..i]) && Eta(s, i) < horizon
  }

  /** A collection's slot may be searched for now. */
  ghost predicate InReach(s: Player, horizon: int, paused: bool, job: nat, position: nat) {
    || horizon <= 0
    || (!paused && Find(s.deck.queue, job, position) < |s.deck.queue|
        && Reaches(s, horizon, Find(s.deck.queue, job, position)))
  }

  lemma {:induction false} TotalGrows(q: Queue, i: nat, j: nat)
    requires i <= j <= |q| && AllKnown(q[..j])
    ensures Total(q[..i]) <= Total(q[..j]) && AllKnown(q[..i])
  {
    assert forall e | e in q[..i] :: e in q[..j];
    if i < j {
      assert q[..j][..j - 1] == q[..j - 1];
      assert forall e | e in q[..j - 1] :: e in q[..j];
      assert q[j - 1] in q[..j];
      TotalGrows(q, i, j - 1);
    }
  }

  lemma TotalNext(q: Queue, k: nat)
    requires k < |q|
    ensures Total(q[..k + 1]) == Total(q[..k]) + q[k].track.duration
    ensures AllKnown(q[..k + 1]) <==> AllKnown(q[..k]) && Known(q[k].track)
  {
    assert q[..k + 1][..k] == q[..k];
    assert q[..k + 1] == q[..k] + [q[k]];
  }

  /** A barrier at or before slot i keeps it out of reach. */
  lemma BeyondReach(s: Player, horizon: int, k: nat, i: nat)
    requires k <= i <= |s.deck.queue| && !Reaches(s, horizon, k)
    ensures !Reaches(s, horizon, i)
  {
    if Reaches(s, horizon, i) {
      TotalGrows(s.deck.queue, k, i);
    }
  }

  /** The walk over the real queue decides reach exactly, and gives the prefix sum. */
  method ResolutionHorizon(p: GuildPlayer, horizon: int, paused: bool, job: nat, position: nat)
    returns (eta: int, within: bool)
    ensures within <==> InReach(p.Model(), horizon, paused, job, position)
    ensures within && horizon > 0 ==>
      Find(p.queue, job, position) < |p.queue| && Left(p.Model()).Some?
      && eta == Eta(p.Model(), Find(p.queue, job, position))
    ensures within ==> 0 <= eta && (horizon > 0 ==> eta < horizon)
  {
    ghost var s, goal := p.Model(), Find(p.queue, job, position);
    if horizon <= 0 {
      return 0, true;
    }
    if paused {
      return 0, false;
    }
    eta := 0;
    if p.current.Some? {
      if p.current.value.live || p.current.value.duration <= 0 {
        return 0, false;
      }
      eta := Max(0, p.current.value.duration - p.tape.confirmed);
    }
    for k := 0 to |p.queue|
      invariant k <= goal && Left(s).Some? && eta == Eta(s, k) && AllKnown(p.queue[..k])
      invariant eta >= 0 && (k > 0 ==> eta < horizon)
    {
      var entry := p.queue[k];
      if AtSlot(entry, job, position) {
        FindIsFirst(p.queue, job, position, goal);
        return eta, eta < horizon;
      }
      TotalNext(p.queue, k);
      if entry.track.live || entry.track.duration <= 0 {
        BarrierAt(s, horizon, k, goal);
        return 0, false;
      }
      eta := eta + entry.track.duration;
      if eta >= horizon {
        BarrierAt(s, horizon, k, goal);
        return eta, false;
      }
    }
    return 0, false;
  }

  lemma BarrierAt(s: Player, horizon: int, k: nat, goal: nat)
    requires k < |s.deck.queue| && k + 1 <= goal <= |s.deck.queue| && !Reaches(s, horizon, k + 1)
    ensures !Reaches(s, horizon, goal)
  {
    BeyondReach(s, horizon, k + 1, goal);
  }

  /** What is in reach is a prefix of the queue: nothing ahead of a slot in reach is out of it. */
  lemma ReachIsPrefix(s: Player, horizon: int, paused: bool, job: nat, position: nat, job': nat, position': nat)
    requires InReach(s, horizon, paused, job, position) && horizon > 0
    requires Find(s.deck.queue, job', position') <= Find(s.deck.queue, job, position)
    ensures InReach(s, horizon, paused, job', position')
  {
    var i, j := Find(s.deck.queue, job', position'), Find(s.deck.queue, job, position);
    if !Reaches(s, horizon, i) {
      BeyondReach(s, horizon, i, j);
    }
  }

  /** Confirming audio never takes a slot out of reach. */
  lemma ConfirmingKeepsReach(s: Player, horizon: int, paused: bool, job: nat, position: nat, sequence: nat)
    requires InReach(s, horizon, paused, job, position)
    ensures InReach(Step(s, P(FrameSent(sequence))), horizon, paused, job, position)
  {
  }

  // ---------------------------------------------------------------------------
  // Proofs found within the horizon
  // ---------------------------------------------------------------------------

  /** The proof was checked, not in the future, less than a lease ago. */
  predicate FreshProof(checkedAt: Option<int>, now: int) {
    checkedAt.Some? && checkedAt.value <= now < checkedAt.value + LEASE
  }

  /** When playback of the slot is expected to have begun, estimated at the start of the search. */
  function ExpectedUntil(start: int, eta: int): int {
    if eta > 0 then start + eta + MINUTE else start
  }

  predicate ProofCovers(checkedAt: Option<int>, until: Option<int>, now: int) {
    FreshProof(checkedAt, now) && (until.None? || until.value < checkedAt.value + LEASE)
  }

  /** A proof checked after the estimate of a slot in reach covers its playback for as long as it is fresh. */
  lemma ProofInReachCovers(s: Player, horizon: int, paused: bool, job: nat, position: nat,
        start: int, checkedAt: int, now: int)
    requires 0 < horizon <= PREFETCH_HORIZON && InReach(s, horizon, paused, job, position) && start <= checkedAt
    ensures var i := Find(s.deck.queue, job, position);
      i < |s.deck.queue| && Left(s).Some? &&
      (ProofCovers(Some(checkedAt), Some(ExpectedUntil(start, Eta(s, i))), now) <==> FreshProof(Some(checkedAt), now))
  {
  }

  /** Without the horizon: the proof covers while fresh exactly when less than nine minutes lie ahead of its check. */
  lemma CoversIff(start: int, eta: int, checkedAt: int, now: int)
    requires start <= checkedAt && eta > 0
    ensures ProofCovers(Some(checkedAt), Some(ExpectedUntil(start, eta)), now) <==>
      FreshProof(Some(checkedAt), now) && eta < LEASE - MINUTE + (checkedAt - start)
  {
  }
}
