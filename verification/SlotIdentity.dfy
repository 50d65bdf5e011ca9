/**
 Every step keeps the queue sound: slots are unique, jobs and queue agree about what is still wanted,
 occurrences are unique, and the queue with the current song never outgrows its capacity.
 */
module SlotIdentity {
  import opened Prelude
  import opened PlayerState

  // ---------------------------------------------------------------------------
  // Counting entries
  // ---------------------------------------------------------------------------

  ghost function Tally(q: Queue, p: Entry -> bool): nat {
    if q == [] then 0 else Tally(q[..|q| - 1], p) + if p(q[|q| - 1]) then 1 else 0
  }

  function Slot(job: nat, index: nat): Entry -> bool {
    (e: Entry) => AtSlot(e, job, index)
  }

  function Occ(occ: nat): Entry -> bool {
    (e: Entry) => e.occ == occ
  }

  lemma {:induction false} TallyAppend(a: Queue, b: Queue, p: Entry -> bool)
    ensures Tally(a + b, p) == Tally(a, p) + Tally(b, p)
  {
    if b == [] {
      assert a + b == a;
    } else {
      assert (a + b)[..|a + b| - 1] == a + b[..|b| - 1];
      TallyAppend(a, b[..|b| - 1], p);
    }
  }

  lemma TallyOne(e: Entry, p: Entry -> bool)
    ensures Tally([e], p) == if p(e) then 1 else 0
  {
    assert [e][..0] == [];
  }

  lemma TallyAround(a: Queue, e: Entry, b: Queue, p: Entry -> bool)
    ensures Tally(a + [e] + b, p) == Tally(a + b, p) + if p(e) then 1 else 0
  {
    TallyAppend(a + [e], b, p);
    TallyAppend(a, [e], p);
    TallyAppend(a, b, p);
    TallyOne(e, p);
  }

  lemma SplitAt(q: Queue, i: nat)
    requires i < |q|
    ensures q == q[..i] + [q[i]] + q[i + 1..]
  {
  }

  lemma TallyWithout(q: Queue, i: nat, p: Entry -> bool)
    requires i < |q|
    ensures Tally(q, p) == Tally(Without(q, i), p) + if p(q[i]) then 1 else 0
  {
    SplitAt(q, i);
    TallyAround(q[..i], q[i], q[i + 1..], p);
  }

  lemma TallyInsert(q: Queue, j: nat, e: Entry, p: Entry -> bool)
    requires j <= |q|
    ensures Tally(q[..j] + [e] + q[j..], p) == Tally(q, p) + if p(e) then 1 else 0
  {
    assert q == q[..j] + q[j..];
    TallyAround(q[..j], e, q[j..], p);
  }

  lemma TallyUpdate(q: Queue, i: nat, e: Entry, p: Entry -> bool)
    requires i < |q|
    ensures Tally(q[i := e], p) + (if p(q[i]) then 1 else 0) == Tally(q, p) + if p(e) then 1 else 0
  {
    TallyWithout(q, i, p);
    TallyWithout(q[i := e], i, p);
    assert Without(q[i := e], i) == Without(q, i);
  }

  lemma {:induction false} TallySwapped(q: Queue, swaps: seq<(nat, nat)>, p: Entry -> bool)
    requires forall w | w in swaps :: w.0 < |q| && w.1 < |q|
    ensures Tally(Swapped(q, swaps), p) == Tally(q, p)
  {
    if swaps != [] {
      var init, w := swaps[..|swaps| - 1], swaps[|swaps| - 1];
      assert w in swaps;
      TallySwapped(q, init, p);
      var r := Swapped(q, init);
      TallyUpdate(r, w.0, r[w.1], p);
      TallyUpdate(r[w.0 := r[w.1]], w.1, r[w.0], p);
    }
  }

  lemma {:induction false} TallyPositive(q: Queue, p: Entry -> bool)
    ensures Tally(q, p) > 0 <==> exists e :: e in q && p(e)
  {
    if q != [] {
      var init, last := q[..|q| - 1], q[|q| - 1];
      TallyPositive(init, p);
      assert q == init + [last];
    }
  }

  lemma {:induction false} TallySlots(tracks: seq<Track>, pending: bool, job: nat, occ: nat, j: nat, i: nat, o: nat)
    ensures Tally(Slots(tracks, pending, job, occ), Slot(j, i)) == if j == job && i < |tracks| then 1 else 0
    ensures Tally(Slots(tracks, pending, job, occ), Occ(o)) == if occ <= o < occ + |tracks| then 1 else 0
  {
    if tracks != [] {
      var q := Slots(tracks, pending, job, occ);
      assert q[..|q| - 1] == Slots(tracks[..|tracks| - 1], pending, job, occ);
      TallySlots(tracks[..|tracks| - 1], pending, job, occ, j, i, o);
    }
  }

  lemma {:induction false} TallyResolved(q: Queue, job: nat, p: Entry -> bool)
    ensures Tally(Resolved(q, job), p) <= Tally(q, p)
    ensures |Resolved(q, job)| <= |q|
    ensures (forall e | p(e) :: e.job != job) ==> Tally(Resolved(q, job), p) == Tally(q, p)
  {
    if q != [] {
      var init, e := q[..|q| - 1], q[|q| - 1];
      TallyResolved(init, job, p);
      if !(e.job == job && e.pending) {
        TallyAppend(Resolved(init, job), [e], p);
        TallyOne(e, p);
      } else {
        assert Resolved(q, job) == Resolved(init, job);
      }
    }
  }

  lemma {:induction false} ResolvedKeeps(q: Queue, job: nat, e: Entry)
    ensures e in Resolved(q, job) <==> e in q && !(e.job == job && e.pending)
  {
    if q != [] {
      ResolvedKeeps(q[..|q| - 1], job, e);
      assert q == q[..|q| - 1] + [q[|q| - 1]];
    }
  }

  // ---------------------------------------------------------------------------
  // The invariant
  // ---------------------------------------------------------------------------

  /** No position of a collection has two slots. */
  ghost predicate SlotsUnique(q: Queue) {
    forall job, i: nat :: job > 0 ==> Tally(q, Slot(job, i)) <= 1
  }

  /** A job that is not cancelled wants exactly the positions that have a slot. */
  ghost predicate WantedIsQueued(q: Queue, jobs: Jobs) {
    forall job, i: nat | job in jobs && !jobs[job].cancelled ::
      Tally(q, Slot(job, i)) == if i < |jobs[job].wanted| && jobs[job].wanted[i] then 1 else 0
  }

  /** A slot belongs to a job issued before, and while it is pending that job is still registered. */
  ghost predicate Attributed(q: Queue, jobs: Jobs, nextJob: nat) {
    && (forall job | job in jobs :: 0 < job <= nextJob)
    && (forall e | e in q :: e.job <= nextJob && (e.pending ==> e.job in jobs))
  }

  ghost predicate Linked(q: Queue, jobs: Jobs, nextJob: nat) {
    SlotsUnique(q) && WantedIsQueued(q, jobs) && Attributed(q, jobs, nextJob)
  }

  function PlayingOcc(d: Deck): Option<nat> {
    if d.current.Some? then Some(d.currentOcc) else None
  }

  /** No occurrence is at two places, and numbers not issued yet are nowhere. */
  ghost predicate OccUnique(q: Queue, playing: Option<nat>, next: nat) {
    forall o: nat :: Tally(q, Occ(o)) + (if playing == Some(o) then 1 else 0) <= if o < next then 1 else 0
  }

  predicate WithinCapacity(d: Deck) {
    |d.queue| + (if d.current.Some? then 1 else 0) <= MAX_QUEUE + 1
  }

  ghost predicate Sound(d: Deck) {
    && Linked(d.queue, d.jobs, d.nextJob)
    && OccUnique(d.queue, PlayingOcc(d), d.nextOcc)
    && WithinCapacity(d)
    && (d.current.Some? ==> d.attempt.Some?)
  }

  /** Slots of jobs already issued can only go away. */
  ghost predicate NoRevival(before: Queue, after: Queue, nextJob: nat) {
    forall job, i: nat | 0 < job <= nextJob :: Tally(after, Slot(job, i)) <= Tally(before, Slot(job, i))
  }

  ghost predicate Keeps(d: Deck, t: Deck) {
    Sound(t) && NoRevival(d.queue, t.queue, d.nextJob) && d.nextJob <= t.nextJob && d.nextOcc <= t.nextOcc
  }

  // ---------------------------------------------------------------------------
  // Edits of queue and jobs together
  // ---------------------------------------------------------------------------

  lemma LinkedWithout(q: Queue, jobs: Jobs, nextJob: nat, i: nat, after: Jobs)
    requires Linked(q, jobs, nextJob) && i < |q|
    requires after == Discard(jobs, q[i]) || after == Release(jobs, q[i])
    ensures Linked(Without(q, i), after, nextJob)
    ensures NoRevival(q, Without(q, i), nextJob)
  {
    forall job, k: nat
      ensures Tally(q, Slot(job, k)) == Tally(Without(q, i), Slot(job, k)) + if AtSlot(q[i], job, k) then 1 else 0
    {
      TallyWithout(q, i, Slot(job, k));
    }
    assert forall e | e in Without(q, i) :: e in q;
  }

  /** Swaps keep the same entries. */
  lemma SwappedFrom(q: Queue, swaps: seq<(nat, nat)>)
    requires forall w | w in swaps :: w.0 < |q| && w.1 < |q|
    ensures forall e :: e in Swapped(q, swaps) <==> e in q
  {
    forall e
      ensures e in Swapped(q, swaps) <==> e in q
    {
      var same := (x: Entry) => x == e;
      TallySwapped(q, swaps, same);
      TallyPositive(q, same);
      TallyPositive(Swapped(q, swaps), same);
      assert same(e);
    }
  }

  /** Slots outside any collection may join at either end. */
  lemma LinkedExtended(front: Queue, q: Queue, back: Queue, jobs: Jobs, nextJob: nat)
    requires Linked(q, jobs, nextJob)
    requires forall e | e in front + back :: e.job == 0 && !e.pending
    ensures Linked(front + q + back, jobs, nextJob) && NoRevival(q, front + q + back, nextJob)
  {
    forall job, k: nat | job > 0
      ensures Tally(front + q + back, Slot(job, k)) == Tally(q, Slot(job, k))
    {
      var p := Slot(job, k);
      TallyAppend(front + q, back, p);
      TallyAppend(front, q, p);
      TallyPositive(front, p);
      TallyPositive(back, p);
      assert forall e | e in front :: e in front + back;
      assert forall e | e in back :: e in front + back;
    }
    assert forall e | e in front + q + back :: e in front + back || e in q;
  }

  // ---------------------------------------------------------------------------
  // One lemma for each kind of edit
  // ---------------------------------------------------------------------------

  lemma KeepsRemove(d: Deck, position: int)
    requires Sound(d) && Upcoming(d, position)
    ensures Keeps(d, Remove(d, position))
  {
    var i := position - 1;
    LinkedWithout(d.queue, d.jobs, d.nextJob, i, Discard(d.jobs, d.queue[i]));
    forall o: nat
      ensures Tally(Without(d.queue, i), Occ(o)) <= Tally(d.queue, Occ(o))
    {
      TallyWithout(d.queue, i, Occ(o));
    }
  }

  lemma DropOne(d: Deck, n: nat)
    requires n < |d.queue|
    ensures Drop(d, n + 1) == Remove(Drop(d, n), 1)
  {
    var q := d.queue;
    assert q[..n + 1][..n] == q[..n];
    assert Without(q[n..], 0) == q[n + 1..];
  }

  lemma {:induction false} KeepsDrop(d: Deck, n: nat)
    requires Sound(d) && n <= |d.queue|
    ensures Keeps(d, Drop(d, n))
  {
    if n == 0 {
      assert Drop(d, 0) == d;
    } else {
      KeepsDrop(d, n - 1);
      DropOne(d, n - 1);
      KeepsRemove(Drop(d, n - 1), 1);
    }
  }

  lemma KeepsReordered(d: Deck, r: Queue)
    requires Sound(d) && |r| == |d.queue| && (forall e | e in r :: e in d.queue)
    requires forall p: Entry -> bool :: Tally(r, p) == Tally(d.queue, p)
    ensures Keeps(d, d.(queue := r))
  {
  }

  lemma KeepsMove(d: Deck, from: int, to: int)
    requires Sound(d) && Upcoming(d, from) && Upcoming(d, to)
    ensures Keeps(d, Move(d, from, to))
  {
    var q, i, j := d.queue, from - 1, to - 1;
    forall p: Entry -> bool
      ensures Tally(Moved(q, i, j), p) == Tally(q, p)
    {
      TallyWithout(q, i, p);
      TallyInsert(Without(q, i), j, q[i], p);
    }
    assert forall e | e in Moved(q, i, j) :: e in q;
    KeepsReordered(d, Moved(q, i, j));
  }

  lemma KeepsShuffle(d: Deck, swaps: Swaps)
    requires Sound(d) && CanShuffle(d, swaps)
    ensures Keeps(d, Shuffle(d, swaps))
  {
    forall p: Entry -> bool
      ensures Tally(Swapped(d.queue, swaps), p) == Tally(d.queue, p)
    {
      TallySwapped(d.queue, swaps, p);
    }
    SwappedFrom(d.queue, swaps);
    KeepsReordered(d, Swapped(d.queue, swaps));
  }

  lemma OccLengthened(d: Deck, tracks: seq<Track>, pending: bool, job: nat)
    requires Sound(d)
    ensures var t := Lengthened(d, tracks, pending, job);
      OccUnique(t.queue, PlayingOcc(t), t.nextOcc)
  {
    var more := Slots(tracks, pending, job, d.nextOcc);
    forall o: nat
      ensures Tally(d.queue + more, Occ(o)) ==
        Tally(d.queue, Occ(o)) + if d.nextOcc <= o < d.nextOcc + |tracks| then 1 else 0
    {
      TallyAppend(d.queue, more, Occ(o));
      TallySlots(tracks, pending, job, d.nextOcc, 0, 0, o);
    }
  }

  lemma KeepsEnqueue(d: Deck, tracks: seq<Track>)
    requires Sound(d) && WithinCapacity(Lengthened(d, tracks, false, 0))
    ensures Keeps(d, Lengthened(d, tracks, false, 0))
  {
    var more := Slots(tracks, false, 0, d.nextOcc);
    LinkedExtended([], d.queue, more, d.jobs, d.nextJob);
    assert [] + d.queue + more == d.queue + more;
    OccLengthened(d, tracks, false, 0);
  }

  lemma LinkedReserved(q: Queue, jobs: Jobs, nextJob: nat, tracks: seq<Track>, occ: nat)
    requires Linked(q, jobs, nextJob)
    ensures var id := nextJob + 1;
      var after := q + Slots(tracks, true, id, occ);
      Linked(after, jobs[id := NewJob(|tracks|)], id) && NoRevival(q, after, nextJob)
  {
    var id := nextJob + 1;
    var more := Slots(tracks, true, id, occ);
    forall job, k: nat
      ensures Tally(q + more, Slot(job, k)) == Tally(q, Slot(job, k)) + if job == id && k < |tracks| then 1 else 0
      ensures job == id ==> Tally(q, Slot(job, k)) == 0
    {
      TallyAppend(q, more, Slot(job, k));
      TallySlots(tracks, true, id, occ, job, k, 0);
      TallyPositive(q, Slot(job, k));
    }
    assert forall e | e in q + more :: e in q || e in more;
  }

  lemma KeepsReserved(d: Deck, tracks: seq<Track>)
    requires Sound(d) && |d.queue| + |tracks| <= MAX_QUEUE
    ensures Keeps(d, Reserved(d, tracks))
  {
    LinkedReserved(d.queue, d.jobs, d.nextJob, tracks, d.nextOcc);
    OccLengthened(d, tracks, true, d.nextJob + 1);
  }

  lemma KeepsTaken(d: Deck)
    requires Sound(d) && d.queue != [] && d.current.None?
    ensures Keeps(d, Taken(d))
  {
    var e := d.queue[0];
    assert Without(d.queue, 0) == d.queue[1..];
    LinkedWithout(d.queue, d.jobs, d.nextJob, 0, Release(d.jobs, e));
    forall o: nat
      ensures Tally(d.queue, Occ(o)) == Tally(d.queue[1..], Occ(o)) + if e.occ == o then 1 else 0
    {
      TallyWithout(d.queue, 0, Occ(o));
    }
  }

  /** One ready slot joins in front. */
  lemma KeepsPrepend(d: Deck, t: Track, occ: nat, next: nat)
    requires Sound(d) && d.current.None? && |d.queue| <= MAX_QUEUE
    requires d.nextOcc <= next && occ < next && Tally(d.queue, Occ(occ)) == 0
    ensures Keeps(d, d.(queue := [Ready(t, occ)] + d.queue, nextOcc := next))
  {
    var e := Ready(t, occ);
    LinkedExtended([e], d.queue, [], d.jobs, d.nextJob);
    assert [e] + d.queue + [] == [e] + d.queue;
    forall o: nat
      ensures Tally([e] + d.queue, Occ(o)) == Tally(d.queue, Occ(o)) + if occ == o then 1 else 0
    {
      TallyAppend([e], d.queue, Occ(o));
      TallyOne(e, Occ(o));
    }
  }

  lemma KeepsReturned(d: Deck, t: Track)
    requires Sound(d) && d.current.Some?
    ensures Keeps(d, Returned(d, t))
  {
    KeepsPrepend(Ended(d), t, d.currentOcc, d.nextOcc);
  }

  lemma KeepsRepeated(d: Deck, t: Track, loop: Loop)
    requires Sound(d)
    ensures Keeps(d, Repeated(d, t, loop))
  {
    if |d.queue| < MAX_QUEUE && loop != Off {
      if loop == One {
        KeepsPrepend(Ended(d), Rewound(t), d.nextOcc, d.nextOcc + 1);
      } else {
        KeepsEnqueue(Ended(d), [Rewound(t)]);
        assert Slots([Rewound(t)], false, 0, d.nextOcc) == [Ready(Rewound(t), d.nextOcc)];
      }
    }
  }

  lemma KeepsReplay(d: Deck)
    requires Sound(d) && CanReplay(d)
    ensures Keeps(d, Replay(d))
  {
    KeepsPrepend(Quiet(d), Rewound(d.current.value), d.nextOcc, d.nextOcc + 1);
  }

  function WithNext(d: Deck): Deck
    requires d.current.Some?
  {
    Quiet(d).(queue := [Ready(d.current.value, d.nextOcc + 1)] + d.queue, nextOcc := d.nextOcc + 2)
  }

  lemma KeepsNext(d: Deck)
    requires Sound(d) && d.current.Some? && |d.queue| < MAX_QUEUE
    ensures Keeps(d, WithNext(d)) && Tally(WithNext(d).queue, Occ(d.nextOcc)) == 0
  {
    var back := Ready(d.current.value, d.nextOcc + 1);
    KeepsPrepend(Quiet(d), d.current.value, d.nextOcc + 1, d.nextOcc + 2);
    TallyAppend([back], d.queue, Occ(d.nextOcc));
    TallyOne(back, Occ(d.nextOcc));
  }

  lemma KeepsBackTo(d: Deck, earlier: Track)
    requires Sound(d) && |d.queue| + (if d.current.Some? then 2 else 1) <= MAX_QUEUE
    ensures Keeps(d, BackTo(d, earlier))
  {
    var again := Ready(Rewound(earlier), d.nextOcc);
    var t := Quiet(d);
    if d.current.Some? {
      t := WithNext(d);
      KeepsNext(d);
      assert [again] + [Ready(d.current.value, d.nextOcc + 1)] + d.queue == [again] + t.queue;
    } else {
      assert [again] + [] + d.queue == [again] + t.queue;
    }
    KeepsPrepend(t, Rewound(earlier), d.nextOcc, d.nextOcc + 2);
  }

  lemma KeepsFilled(d: Deck, i: nat, track: Track)
    requires Sound(d) && i < |d.queue|
    ensures Keeps(d, d.(queue := d.queue[i := Filled(d.queue[i], track)]))
  {
    var e := Filled(d.queue[i], track);
    var q := d.queue[i := e];
    forall job, k: nat
      ensures Tally(q, Slot(job, k)) == Tally(d.queue, Slot(job, k))
    {
      TallyUpdate(d.queue, i, e, Slot(job, k));
    }
    forall o: nat
      ensures Tally(q, Occ(o)) == Tally(d.queue, Occ(o))
    {
      TallyUpdate(d.queue, i, e, Occ(o));
    }
    assert forall x | x in q :: x in d.queue || x == e;
    assert d.queue[i] in d.queue;
  }

  lemma KeepsCommit(d: Deck, job: nat, r: Result)
    requires Sound(d)
    ensures Keeps(d, Commit(d, job, r))
  {
    var i := Find(d.queue, job, r.index);
    if Running(d, job) && i < |d.queue| {
      if r.failed || r.skipped {
        LinkedWithout(d.queue, d.jobs, d.nextJob, i, Release(d.jobs, d.queue[i]));
        forall o: nat
          ensures Tally(Without(d.queue, i), Occ(o)) <= Tally(d.queue, Occ(o))
        {
          TallyWithout(d.queue, i, Occ(o));
        }
      } else {
        KeepsFilled(d, i, r.track);
      }
    }
  }

  lemma LinkedResolved(q: Queue, jobs: Jobs, nextJob: nat, job: nat)
    requires Linked(q, jobs, nextJob)
    ensures Linked(Resolved(q, job), jobs - {job}, nextJob) && NoRevival(q, Resolved(q, job), nextJob)
  {
    var after := Resolved(q, job);
    forall j, k: nat
      ensures Tally(after, Slot(j, k)) <= Tally(q, Slot(j, k))
      ensures j != job ==> Tally(after, Slot(j, k)) == Tally(q, Slot(j, k))
    {
      TallyResolved(q, job, Slot(j, k));
    }
    forall e
      ensures e in after <==> e in q && !(e.job == job && e.pending)
    {
      ResolvedKeeps(q, job, e);
    }
  }

  lemma KeepsEndJob(d: Deck, job: nat)
    requires Sound(d)
    ensures Keeps(d, EndJob(d, job))
  {
    LinkedResolved(d.queue, d.jobs, d.nextJob, job);
    forall o: nat
      ensures Tally(Resolved(d.queue, job), Occ(o)) <= Tally(d.queue, Occ(o))
      ensures |Resolved(d.queue, job)| <= |d.queue|
    {
      TallyResolved(d.queue, job, Occ(o));
    }
    TallyResolved(d.queue, job, Occ(0));
  }

  /** Metadata and interruption leave queue and jobs alone. */
  lemma KeepsSame(d: Deck, t: Deck)
    requires Sound(d)
    requires t == d.(current := t.current, attempt := t.attempt)
    requires t.current.Some? == d.current.Some? && t.attempt.Some? == d.attempt.Some?
    ensures Keeps(d, t)
  {
  }

  lemma KeepsRecord(d: Deck, job: nat, r: Result)
    requires Sound(d)
    ensures Keeps(d, Record(d, job, r))
  {
  }

  lemma KeepsCancelJob(d: Deck, job: nat)
    requires Sound(d)
    ensures Keeps(d, CancelJob(d, job))
  {
  }

  lemma KeepsEmptied(d: Deck)
    requires Sound(d)
    ensures var t := d.(queue := [], jobs := CancelAll(d.jobs)); Keeps(d, t) && Keeps(d, Quiet(t))
  {
  }

  lemma KeepsJump(d: Deck, n: nat)
    requires Sound(d) && n <= |d.queue|
    ensures Keeps(d, Drop(Quiet(d), n))
  {
    KeepsDrop(Quiet(d), n);
  }

  lemma KeepsKept(d: Deck, t: Track)
    requires Sound(d) && d.current.Some?
    ensures Keeps(d, Kept(d, t))
  {
    KeepsReturned(d, t);
  }

  lemma KeepsFinish(s: Player, ending: Ending)
    requires Sound(s.deck) && s.deck.attempt.Some?
    ensures Keeps(s.deck, Finish(s, ending).deck)
  {
    var d := s.deck;
    match FateOf(s, ending)
    case Suspended => KeepsKept(d, Saved(s));
    case Blocked => KeepsKept(d, Saved(s));
    case Retried => KeepsKept(d, Saved(s));
    case Stuck => KeepsReturned(d, Saved(s));
    case Completed => KeepsRepeated(d, d.current.value, s.modes.loop);
    case _ =>
  }

  // ---------------------------------------------------------------------------
  // Every step, and whole runs
  // ---------------------------------------------------------------------------

  lemma AdditionKeeps(s: Player, e: Edit)
    requires Sound(s.deck) && (e.EnqueueMany? || e.BeginCollection? || e.ReplayCurrent? || e.PlayPrevious?)
    ensures Keeps(s.deck, EditStep(s, e).deck)
  {
    var d := s.deck;
    if EditStep(s, e) == s {
      KeepsSame(d, d);
    } else {
      match e
      case EnqueueMany(tracks, _) => KeepsEnqueue(d, tracks);
      case BeginCollection(tracks, _) => KeepsReserved(d, tracks);
      case ReplayCurrent => KeepsReplay(d);
      case PlayPrevious => KeepsBackTo(d, s.tape.history[Behind(s) - 1]);
    }
  }

  lemma RemovalKeeps(s: Player, e: Edit)
    requires Sound(s.deck) && (e.RemoveAt? || e.JumpTo? || e.SkipN?)
    ensures Keeps(s.deck, EditStep(s, e).deck)
  {
    var d := s.deck;
    KeepsSame(d, d);
    match e
    case RemoveAt(position) => if Upcoming(d, position) { KeepsRemove(d, position); }
    case JumpTo(position) => if Upcoming(d, position) { KeepsJump(d, position - 1); }
    case SkipN(count) =>
      if CanSkip(count) { KeepsJump(d, Min(if d.current.Some? then count - 1 else count, |d.queue|)); }
  }

  lemma ReorderKeeps(s: Player, e: Edit)
    requires Sound(s.deck) && (e.MoveTo? || e.ShuffleBy?)
    ensures Keeps(s.deck, EditStep(s, e).deck)
  {
    var d := s.deck;
    KeepsSame(d, d);
    match e
    case MoveTo(from, to) => if Upcoming(d, from) && Upcoming(d, to) { KeepsMove(d, from, to); }
    case ShuffleBy(swaps) => if CanShuffle(d, swaps) { KeepsShuffle(d, swaps); }
  }

  lemma ControlKeeps(s: Player, c: Control)
    requires Sound(s.deck)
    ensures Keeps(s.deck, ControlStep(s, c).deck)
  {
    KeepsSame(s.deck, s.deck);
    KeepsEmptied(s.deck);
  }

  lemma TransportKeeps(s: Player, t: Transport)
    requires Sound(s.deck)
    ensures Keeps(s.deck, TransportStep(s, t).deck)
  {
    KeepsSame(s.deck, s.deck);
    KeepsSame(s.deck, Interrupted(s.deck));
  }

  lemma PlayKeeps(s: Player, p: Playing)
    requires Sound(s.deck)
    ensures Keeps(s.deck, PlayStep(s, p).deck)
  {
    var d := s.deck;
    KeepsSame(d, d);
    match p
    case SelectHead(permit) => if CanSelect(s, permit) { KeepsTaken(d); }
    case SetTrack(sequence, final) => if Unstarted(s, sequence) { KeepsSame(d, Described(d, final)); }
    case FrameSent(_) =>
    case FirstFrame(_) =>
    case TrackEnds(ending) => if d.attempt.Some? { KeepsFinish(s, ending); }
  }

  lemma ResolveKeeps(s: Player, r: Resolving)
    requires Sound(s.deck)
    ensures Keeps(s.deck, ResolveStep(s, r).deck)
  {
    var d := s.deck;
    KeepsSame(d, d);
    match r
    case CommitResult(job, result) => KeepsCommit(d, job, result);
    case RecordResult(job, result) => KeepsRecord(d, job, result);
    case JobEnds(job) => KeepsEndJob(d, job);
    case JobCancelled(job) => KeepsCancelJob(d, job);
    case ProviderChanges(_) =>
  }

  /** Every step, in any order, keeps the player sound and brings no slot back. */
  lemma StepKeeps(s: Player, e: Event)
    requires Sound(s.deck)
    ensures Keeps(s.deck, Step(s, e).deck)
  {
    match e
    case E(edit) =>
      if edit.RemoveAt? || edit.JumpTo? || edit.SkipN? {
        RemovalKeeps(s, edit);
      } else if edit.MoveTo? || edit.ShuffleBy? {
        ReorderKeeps(s, edit);
      } else {
        AdditionKeeps(s, edit);
      }
    case C(control) => ControlKeeps(s, control);
    case T(transport) => TransportKeeps(s, transport);
    case P(playing) => PlayKeeps(s, playing);
    case R(resolving) => ResolveKeeps(s, resolving);
  }

  lemma {:induction false} RunSound(states: seq<Player>, events: seq<Event>, n: nat)
    requires Run(states, events) && Sound(states[0].deck) && n <= |events|
    ensures Sound(states[n].deck)
  {
    if n > 0 {
      RunSound(states, events, n - 1);
      StepKeeps(states[n - 1], events[n - 1]);
    }
  }

  /** A slot that is gone stays gone: no late result, retry, repeat or shuffle brings it back. */
  lemma {:induction false} RemovedStaysRemoved(states: seq<Player>, events: seq<Event>, a: nat, b: nat,
        job: nat, i: nat)
    requires Run(states, events) && Sound(states[0].deck) && a <= b <= |events|
    requires 0 < job <= states[a].deck.nextJob && Tally(states[a].deck.queue, Slot(job, i)) == 0
    ensures Tally(states[b].deck.queue, Slot(job, i)) == 0 && job <= states[b].deck.nextJob
  {
    if a < b {
      RemovedStaysRemoved(states, events, a, b - 1, job, i);
      RunSound(states, events, b - 1);
      StepKeeps(states[b - 1], events[b - 1]);
    }
  }

  lemma OnlySelectionStarts(s: Player, e: Event)
    requires s.deck.current.None? && Step(s, e).deck.current.Some?
    ensures e.P? && e.playing.SelectHead? && CanSelect(s, e.playing.permit)
  {
  }

  /** Playback takes only a resolved slot from the head, and takes it for good. */
  lemma SelectionIsFinal(states: seq<Player>, events: seq<Event>, a: nat, b: nat)
    requires Run(states, events) && Sound(states[0].deck) && a < b <= |events|
    requires states[a].deck.current.None? && states[a + 1].deck.current.Some?
    ensures var q := states[a].deck.queue;
      && q != [] && !q[0].pending && states[a + 1].deck.current == Some(q[0].track)
      && (q[0].job > 0 ==> Tally(states[b].deck.queue, Slot(q[0].job, q[0].position)) == 0)
  {
    var d := states[a].deck;
    RunSound(states, events, a);
    OnlySelectionStarts(states[a], events[a]);
    var head := d.queue[0];
    assert states[a + 1] == Select(states[a]);
    if head.job > 0 {
      TakenIsGone(d);
      RemovedStaysRemoved(states, events, a + 1, b, head.job, head.position);
    }
  }

  lemma TakenIsGone(d: Deck)
    requires Sound(d) && d.queue != [] && d.queue[0].job > 0
    ensures Tally(d.queue[1..], Slot(d.queue[0].job, d.queue[0].position)) == 0 && d.queue[0].job <= d.nextJob
  {
    var head := d.queue[0];
    assert Without(d.queue, 0) == d.queue[1..];
    TallyWithout(d.queue, 0, Slot(head.job, head.position));
    assert head in d.queue;
  }

  /** A player starts sound, with any queue that a restart may restore. */
  lemma FreshSound(tracks: seq<Track>, history: seq<Track>, loop: Loop)
    requires |tracks| <= MAX_QUEUE + 1
    ensures Sound(Fresh(Slots(tracks, false, 0, 0), history, loop).deck)
  {
    var q := Slots(tracks, false, 0, 0);
    forall job, i: nat
      ensures Tally(q, Slot(job, i)) == if job == 0 && i < |tracks| then 1 else 0
    {
      TallySlots(tracks, false, 0, 0, job, i, 0);
    }
    forall o: nat
      ensures Tally(q, Occ(o)) == if o < |tracks| then 1 else 0
    {
      TallySlots(tracks, false, 0, 0, 0, 0, o);
    }
  }
}
