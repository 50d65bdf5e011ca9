/**
 Progressive resolution of a collection: searches finish in any order, slots are published in queue order.
 */
module Collections {
  import opened Prelude
  import opened PlayerState
  import opened SlotIdentity
  import opened GuildPlayers
  import Progress

  const PREFETCH := 6

  // ---------------------------------------------------------------------------
  // Publishing results
  // ---------------------------------------------------------------------------

  /** Results by position of the collection. */
  type Results = map<nat, Result>

  predicate Fails(r: Result) {
    r.failed || r.skipped
  }

  function PublishedSlot(e: Entry, job: nat, results: Results): Queue {
    if e.job != job || e.position !in results then [e]
    else if Fails(results[e.position]) then []
    else [Filled(e, results[e.position].track)]
  }

  /** Each resolved slot holds its result, each failed one is gone, and nothing else moves. */
  function Publish(q: Queue, job: nat, results: Results): Queue {
    if q == [] then [] else Publish(q[..|q| - 1], job, results) + PublishedSlot(q[|q| - 1], job, results)
  }

  lemma {:induction false} PublishAppend(a: Queue, b: Queue, job: nat, results: Results)
    ensures Publish(a + b, job, results) == Publish(a, job, results) + Publish(b, job, results)
  {
    if b == [] {
      assert a + b == a;
    } else {
      assert (a + b)[..|a + b| - 1] == a + b[..|b| - 1];
      PublishAppend(a, b[..|b| - 1], job, results);
    }
  }

  /** Entries without a result stay as they are. */
  lemma {:induction false} PublishFirst(q: Queue, n: nat, job: nat, results: Results)
    requires n <= |q| && forall k | 0 <= k < n :: q[k].job != job || q[k].position !in results
    ensures Publish(q[..n], job, results) == q[..n]
  {
    if n > 0 {
      PublishFirst(q, n - 1, job, results);
      assert q[..n][..n - 1] == q[..n - 1];
      assert PublishedSlot(q[n - 1], job, results) == [q[n - 1]];
    }
  }

  lemma PublishNone(q: Queue, job: nat, results: Results)
    requires forall e | e in q :: e.job != job || e.position !in results
    ensures Publish(q, job, results) == q
  {
    PublishFirst(q, |q|, job, results);
    assert q[..|q|] == q;
  }

  lemma {:induction false} PublishTwice(q: Queue, job: nat, results: Results, r: Result)
    requires r.index !in results
    ensures Publish(Publish(q, job, results), job, map[r.index := r]) == Publish(q, job, results[r.index := r])
  {
    if q != [] {
      var init, last := q[..|q| - 1], q[|q| - 1];
      PublishTwice(init, job, results, r);
      PublishAppend(Publish(init, job, results), PublishedSlot(last, job, results), job, map[r.index := r]);
    }
  }

  lemma {:induction false} TallyPublish(q: Queue, job: nat, results: Results, i: nat)
    ensures Tally(Publish(q, job, results), Slot(job, i)) <= Tally(q, Slot(job, i))
    ensures i !in results ==> Tally(Publish(q, job, results), Slot(job, i)) == Tally(q, Slot(job, i))
  {
    if q != [] {
      var init, last := q[..|q| - 1], q[|q| - 1];
      TallyPublish(init, job, results, i);
      TallyAppend(Publish(init, job, results), PublishedSlot(last, job, results), Slot(job, i));
      if PublishedSlot(last, job, results) != [] {
        TallyOne(PublishedSlot(last, job, results)[0], Slot(job, i));
      }
    }
  }

  lemma PublishAround(a: Queue, e: Entry, b: Queue, job: nat, results: Results)
    requires forall x | x in a + b :: x.job != job || x.position !in results
    ensures Publish(a + [e] + b, job, results) == a + PublishedSlot(e, job, results) + b
  {
    assert forall x | x in a :: x in a + b;
    assert forall x | x in b :: x in a + b;
    PublishNone(a, job, results);
    PublishNone(b, job, results);
    PublishAppend(a + [e], b, job, results);
    PublishAppend(a, [e], job, results);
    assert [e][..0] == [];
    assert Publish([e], job, results) == [] + PublishedSlot(e, job, results);
  }

  lemma OnlySlot(q: Queue, i: nat, job: nat, index: nat)
    requires i < |q| && AtSlot(q[i], job, index) && Tally(q, Slot(job, index)) <= 1
    ensures forall x | x in Without(q, i) :: !AtSlot(x, job, index)
  {
    TallyWithout(q, i, Slot(job, index));
    TallyPositive(Without(q, i), Slot(job, index));
    forall x | x in Without(q, i)
      ensures !AtSlot(x, job, index)
    {
      assert !Slot(job, index)(x);
    }
  }

  lemma Around(q: Queue, i: nat, e: Entry)
    requires i < |q|
    ensures q[i := e] == q[..i] + [e] + q[i + 1..] && Without(q, i) == q[..i] + [] + q[i + 1..]
  {
  }

  lemma PublishAt(q: Queue, i: nat, job: nat, r: Result)
    requires i < |q| && AtSlot(q[i], job, r.index)
    requires forall x | x in Without(q, i) :: !AtSlot(x, job, r.index)
    ensures Publish(q, job, map[r.index := r]) == if Fails(r) then Without(q, i) else q[i := Filled(q[i], r.track)]
  {
    Around(q, i, q[i]);
    Around(q, i, Filled(q[i], r.track));
    PublishAround(q[..i], q[i], q[i + 1..], job, map[r.index := r]);
    SplitAt(q, i);
  }

  /** One commit publishes one result, where the position has one slot. */
  lemma CommitPublishes(d: Deck, job: nat, r: Result)
    requires Running(d, job) && Tally(d.queue, Slot(job, r.index)) <= 1
    ensures Commit(d, job, r).queue == Publish(d.queue, job, map[r.index := r])
  {
    var i := Find(d.queue, job, r.index);
    if i == |d.queue| {
      PublishNone(d.queue, job, map[r.index := r]);
    } else {
      OnlySlot(d.queue, i, job, r.index);
      PublishAt(d.queue, i, job, r);
    }
  }

  /** The slot of a playable result holds its track and is ready; that of another is gone; no other slot changes. */
  lemma CommitFills(d: Deck, job: nat, r: Result, i: nat)
    requires Running(d, job) && i < |d.queue| && AtSlot(d.queue[i], job, r.index)
    requires Tally(d.queue, Slot(job, r.index)) <= 1
    ensures var q := Commit(d, job, r).queue;
      if r.failed || r.skipped then q == d.queue[..i] + d.queue[i + 1..]
      else
        && |q| == |d.queue| && q[i].track == r.track && !q[i].pending && q[i].occ == d.queue[i].occ
        && forall k: nat | k < |q| && k != i :: q[k] == d.queue[k]
  {
    CommitPublishes(d, job, r);
    OnlySlot(d.queue, i, job, r.index);
    PublishAt(d.queue, i, job, r);
  }

  /** Failed positions are no longer wanted, and nothing else about wants or other jobs changed. */
  ghost predicate Settled(jobs0: Jobs, jobs: Jobs, job: nat, results: Results) {
    && job in jobs0 && jobs.Keys == jobs0.Keys && (forall j | j in jobs && j != job :: jobs[j] == jobs0[j])
    && jobs[job].cancelled == jobs0[job].cancelled
    && |jobs[job].wanted| == |jobs0[job].wanted| && |jobs[job].recorded| == |jobs0[job].recorded|
    && (forall i | 0 <= i < |jobs[job].wanted| ::
          jobs[job].wanted[i] == (jobs0[job].wanted[i] && !(i in results && Fails(results[i]))))
  }

  /** The deck after these results were published. */
  ghost predicate Published(d0: Deck, d: Deck, job: nat, results: Results) {
    d.queue == Publish(d0.queue, job, results) && Settled(d0.jobs, d.jobs, job, results)
  }

  lemma PublishedFinds(q: Queue, job: nat, index: nat)
    requires Tally(q, Slot(job, index)) > 0
    ensures Find(q, job, index) < |q|
  {
    TallyPositive(q, Slot(job, index));
    var e :| e in q && Slot(job, index)(e);
    assert AtSlot(e, job, index);
  }

  lemma CommitKeepsPublished(d0: Deck, d: Deck, job: nat, results: Results, r: Result)
    requires Published(d0, d, job, results) && r.index !in results && Running(d0, job)
    requires Tally(d0.queue, Slot(job, r.index)) == 1 && r.index < |d0.jobs[job].wanted|
    ensures Published(d0, Commit(d, job, r), job, results[r.index := r])
    ensures Commit(d, job, r).jobs[job].recorded == d.jobs[job].recorded
  {
    TallyPublish(d0.queue, job, results, r.index);
    PublishedFinds(d.queue, job, r.index);
    CommitSettles(d0.jobs, d.jobs, job, results, r);
    CommitQueue(d0, d, job, results, r);
  }

  lemma CommitQueue(d0: Deck, d: Deck, job: nat, results: Results, r: Result)
    requires Running(d, job) && d.queue == Publish(d0.queue, job, results) && r.index !in results
    requires Tally(d.queue, Slot(job, r.index)) <= 1
    ensures Commit(d, job, r).queue == Publish(d0.queue, job, results[r.index := r])
  {
    CommitPublishes(d, job, r);
    PublishTwice(d0.queue, job, results, r);
  }

  function Unwanted(jobs: Jobs, job: nat, r: Result): Jobs
    requires job in jobs && r.index < |jobs[job].wanted|
  {
    if Fails(r) then jobs[job := jobs[job].(wanted := jobs[job].wanted[r.index := false])] else jobs
  }

  lemma CommitSettles(jobs0: Jobs, jobs: Jobs, job: nat, results: Results, r: Result)
    requires Settled(jobs0, jobs, job, results) && r.index < |jobs[job].wanted| && r.index !in results
    ensures Settled(jobs0, Unwanted(jobs, job, r), job, results[r.index := r])
    ensures Unwanted(jobs, job, r)[job].recorded == jobs[job].recorded
  {
  }

  lemma RecordKeepsPublished(d0: Deck, d: Deck, job: nat, results: Results, r: Result)
    requires Published(d0, d, job, results) && r.index < |d.jobs[job].recorded|
    ensures Published(d0, Record(d, job, r), job, results)
    ensures Record(d, job, r).jobs[job].recorded == d.jobs[job].recorded[r.index := true]
  {
    assert d.jobs[job].recorded[r.index] ==> d.jobs[job].recorded[r.index := true] == d.jobs[job].recorded;
  }

  // ---------------------------------------------------------------------------
  // One window of searches
  // ---------------------------------------------------------------------------

  /** What a search reports; a blocked one produced no result. */
  datatype Arrival = Arrived(result: Result) | BlockedAt(position: nat)

  function Place(a: Arrival): nat {
    if a.Arrived? then a.result.index else a.position
  }

  /** The result that has arrived for a position, if any. */
  function Answer(arrivals: seq<Arrival>, i: nat): Option<Result> {
    if arrivals == [] then None
    else
      var last := arrivals[|arrivals| - 1];
      if last.Arrived? && last.result.index == i then Some(last.result) else Answer(arrivals[..|arrivals| - 1], i)
  }

  ghost predicate Distinct(s: seq<nat>) {
    forall i, j | 0 <= i < j < |s| :: s[i] != s[j]
  }

  /** Every arrival is for a position of the window, and none comes twice. */
  ghost predicate Complete(indexes: seq<nat>, arrivals: seq<Arrival>) {
    && (forall n | 0 <= n < |arrivals| :: Place(arrivals[n]) in indexes)
    && (forall m, n | 0 <= m < n < |arrivals| :: Place(arrivals[m]) != Place(arrivals[n]))
    && (forall i | i in indexes :: exists n :: 0 <= n < |arrivals| && Place(arrivals[n]) == i)
  }

  /** Each position of the window has one slot. */
  ghost predicate Slotted(d: Deck, job: nat, indexes: seq<nat>) {
    && Running(d, job) && Distinct(indexes)
    && forall i | i in indexes ::
         Tally(d.queue, Slot(job, i)) == 1 && i < |d.jobs[job].wanted| && i < |d.jobs[job].recorded|
  }

  lemma {:induction false} AnswerFrom(arrivals: seq<Arrival>, i: nat)
    ensures var answer := Answer(arrivals, i);
      answer.Some? ==> Arrived(answer.value) in arrivals && answer.value.index == i
  {
    if arrivals != [] {
      AnswerFrom(arrivals[..|arrivals| - 1], i);
    }
  }

  lemma {:induction false} AnswerOf(arrivals: seq<Arrival>, n: nat)
    requires forall m, k | 0 <= m < k < |arrivals| :: Place(arrivals[m]) != Place(arrivals[k])
    requires n < |arrivals|
    ensures Answer(arrivals, Place(arrivals[n])) == if arrivals[n].Arrived? then Some(arrivals[n].result) else None
  {
    var i, init := Place(arrivals[n]), arrivals[..|arrivals| - 1];
    if n == |arrivals| - 1 {
      if arrivals[n].BlockedAt? {
        AnswerFrom(init, i);
      } 
    } else {
      AnswerOf(init, n);
    }
  }

  lemma SameAnswer(indexes: seq<nat>, a: seq<Arrival>, b: seq<Arrival>, i: nat)
    requires Complete(indexes, a) && Complete(indexes, b) && multiset(a) == multiset(b) && i in indexes
    ensures Answer(a, i) == Answer(b, i)
  {
    var n :| 0 <= n < |a| && Place(a[n]) == i;
    assert a[n] in multiset(a);
    var m :| 0 <= m < |b| && b[m] == a[n];
    AnswerOf(a, n);
    AnswerOf(b, m);
  }

  /** What is buffered so far. */
  ghost predicate Buffered(ready: seq<bool>, buffered: seq<Result>, arrivals: seq<Arrival>) {
    && |ready| == |buffered|
    && forall i | 0 <= i < |ready| :: ready[i] == Answer(arrivals, i).Some?
         && (ready[i] ==> Answer(arrivals, i) == Some(buffered[i]))
  }

  lemma BufferMore(ready: seq<bool>, buffered: seq<Result>, arrivals: seq<Arrival>, a: Arrival)
    requires Buffered(ready, buffered, arrivals) && Place(a) < |ready|
    ensures a.BlockedAt? ==> Buffered(ready, buffered, arrivals + [a])
    ensures a.Arrived? ==> Buffered(ready[a.result.index := true], buffered[a.result.index := a.result], arrivals + [a])
  {
    assert (arrivals + [a])[..|arrivals|] == arrivals;
  }

  /** The prefix of the window that was published, with the results it was given. */
  ghost predicate Prefix(indexes: seq<nat>, frontier: nat, arrivals: seq<Arrival>, results: Results) {
    && frontier <= |indexes|
    && (forall i :: i in results <==> i in indexes[..frontier])
    && (forall i | i in results :: Answer(arrivals, i) == Some(results[i]))
  }

  /** The prefix ends at the first position without a result. */
  ghost predicate Maximal(indexes: seq<nat>, frontier: nat, arrivals: seq<Arrival>) {
    frontier < |indexes| ==> Answer(arrivals, indexes[frontier]).None?
  }

  lemma NoFurther(indexes: seq<nat>, f: nat, g: nat, a: seq<Arrival>, b: seq<Arrival>, r: Results, r': Results)
    requires Complete(indexes, a) && Complete(indexes, b) && multiset(a) == multiset(b)
    requires Prefix(indexes, f, a, r) && Maximal(indexes, f, a) && Prefix(indexes, g, b, r')
    ensures g <= f
  {
    if f < g {
      assert indexes[f] in indexes[..g] && indexes[f] in indexes;
      SameAnswer(indexes, a, b, indexes[f]);
    }
  }

  /** Two windows with the same searches, finishing in any two orders, publish the same prefix with the same results. */
  lemma AnyOrder(indexes: seq<nat>, f: nat, g: nat, a: seq<Arrival>, b: seq<Arrival>, r: Results, r': Results)
    requires Complete(indexes, a) && Complete(indexes, b) && multiset(a) == multiset(b)
    requires Prefix(indexes, f, a, r) && Maximal(indexes, f, a)
    requires Prefix(indexes, g, b, r') && Maximal(indexes, g, b)
    ensures f == g && r == r'
  {
    NoFurther(indexes, f, g, a, b, r, r');
    NoFurther(indexes, g, f, b, a, r', r);
    forall i | i in r
      ensures i in r' && r[i] == r'[i]
    {
      assert i in indexes;
      SameAnswer(indexes, a, b, i);
    }
    assert r.Keys == r'.Keys;
  }

  lemma PrefixLater(indexes: seq<nat>, frontier: nat, arrivals: seq<Arrival>, a: Arrival, results: Results)
    requires Prefix(indexes, frontier, arrivals, results)
    requires Place(a) !in results
    ensures Prefix(indexes, frontier, arrivals + [a], results)
  {
    assert (arrivals + [a])[..|arrivals|] == arrivals;
  }

  /** A published position has arrived already. */
  lemma ArrivesOnce(arrivals: seq<Arrival>, n: nat, i: nat)
    requires forall m, k | 0 <= m < k < |arrivals| :: Place(arrivals[m]) != Place(arrivals[k])
    requires n < |arrivals| && Answer(arrivals[..n], i).Some?
    ensures Place(arrivals[n]) != i
  {
    AnswerFrom(arrivals[..n], i);
  }

  ghost predicate Recorded(jobs0: Jobs, jobs: Jobs, job: nat, arrivals: seq<Arrival>) {
    && job in jobs0 && job in jobs && |jobs[job].recorded| == |jobs0[job].recorded|
    && forall i | 0 <= i < |jobs[job].recorded| ::
         jobs[job].recorded[i] == (jobs0[job].recorded[i] || Answer(arrivals, i).Some?)
  }

  /** The window after some arrivals: what is published, buffered and recorded. */
  ghost predicate Round(d0: Deck, d: Deck, job: nat, indexes: seq<nat>, arrivals: seq<Arrival>,
                        frontier: nat, ready: seq<bool>, buffered: seq<Result>, results: Results)
  {
    && Slotted(d0, job, indexes) && (forall i | i in indexes :: i < |ready|)
    && Published(d0, d, job, results) && Recorded(d0.jobs, d.jobs, job, arrivals)
    && Buffered(ready, buffered, arrivals) && Prefix(indexes, frontier, arrivals, results)
  }

  ghost predicate Stopped(indexes: seq<nat>, frontier: nat, ready: seq<bool>) {
    frontier < |indexes| ==> indexes[frontier] < |ready| && !ready[indexes[frontier]]
  }

  lemma RoundStarts(d: Deck, job: nat, indexes: seq<nat>, ready: seq<bool>, buffered: seq<Result>)
    requires Slotted(d, job, indexes) && ready == Flags(|ready|, false) && |buffered| == |ready|
    requires forall i | i in indexes :: i < |ready|
    ensures Round(d, d, job, indexes, [], 0, ready, buffered, map[]) && Stopped(indexes, 0, ready)
  {
    PublishNone(d.queue, job, map[]);
    assert |indexes| > 0 ==> indexes[0] in indexes;
  }

  lemma RoundBlocked(d0: Deck, d: Deck, job: nat, indexes: seq<nat>, arrivals: seq<Arrival>, frontier: nat,
                     ready: seq<bool>, buffered: seq<Result>, results: Results, a: Arrival)
    requires Round(d0, d, job, indexes, arrivals, frontier, ready, buffered, results)
    requires a.BlockedAt? && a.position in indexes && a.position !in results
    ensures Round(d0, d, job, indexes, arrivals + [a], frontier, ready, buffered, results)
  {
    BufferMore(ready, buffered, arrivals, a);
    PrefixLater(indexes, frontier, arrivals, a, results);
    assert (arrivals + [a])[..|arrivals|] == arrivals;
  }

  lemma RoundArrived(d0: Deck, d: Deck, job: nat, indexes: seq<nat>, arrivals: seq<Arrival>, frontier: nat,
                     ready: seq<bool>, buffered: seq<Result>, results: Results, r: Result)
    requires Round(d0, d, job, indexes, arrivals, frontier, ready, buffered, results)
    requires r.index in indexes && r.index !in results
    ensures Round(d0, Record(d, job, r), job, indexes, arrivals + [Arrived(r)], frontier,
                  ready[r.index := true], buffered[r.index := r], results)
  {
    BufferMore(ready, buffered, arrivals, Arrived(r));
    PrefixLater(indexes, frontier, arrivals, Arrived(r), results);
    RecordKeepsPublished(d0, d, job, results, r);
    assert (arrivals + [Arrived(r)])[..|arrivals|] == arrivals;
  }

  lemma RoundCommits(d0: Deck, d: Deck, job: nat, indexes: seq<nat>, arrivals: seq<Arrival>, frontier: nat,
                     ready: seq<bool>, buffered: seq<Result>, results: Results)
    requires Round(d0, d, job, indexes, arrivals, frontier, ready, buffered, results)
    requires frontier < |indexes| && indexes[frontier] < |ready| && ready[indexes[frontier]]
    ensures var r := buffered[indexes[frontier]];
      && r.index == indexes[frontier] && Running(d, job)
      && Round(d0, Commit(d, job, r), job, indexes, arrivals, frontier + 1, ready, buffered, results[r.index := r])
  {
    var r := buffered[indexes[frontier]];
    assert indexes[frontier] in indexes;
    AnswerFrom(arrivals, indexes[frontier]);
    CommitKeepsPublished(d0, d, job, results, r);
  }

  method CommitOne(p: GuildPlayer, job: nat, r: Result)
    requires p.Valid() && !p.providerBlocked
    modifies p`queue, p`jobs
    ensures p.Valid() && p.TheDeck() == Commit(old(p.TheDeck()), job, r)
  {
    var _ := p.CommitResult(job, r);
  }

  method RecordOne(p: GuildPlayer, job: nat, r: Result)
    requires p.Valid() && !p.providerBlocked
    modifies p`jobs
    ensures p.Valid() && p.TheDeck() == Record(old(p.TheDeck()), job, r)
  {
    p.RecordResult(job, r);
  }

  /** Commits the buffered results that continue the published prefix. */
  method PublishReady(p: GuildPlayer, job: nat, indexes: seq<nat>, from: nat, ready: seq<bool>, buffered: seq<Result>,
                      ghost arrivals: seq<Arrival>, ghost d0: Deck, ghost before: Results)
    returns (frontier: nat, ghost results: Results)
    requires p.Valid() && !p.providerBlocked
    requires Round(d0, p.TheDeck(), job, indexes, arrivals, from, ready, buffered, before)
    modifies p`queue, p`jobs
    ensures p.Valid() && Round(d0, p.TheDeck(), job, indexes, arrivals, frontier, ready, buffered, results)
    ensures Stopped(indexes, frontier, ready)
  {
    frontier, results := from, before;
    while frontier < |indexes|
      invariant p.Valid() && Round(d0, p.TheDeck(), job, indexes, arrivals, frontier, ready, buffered, results)
      decreases |indexes| - frontier
    {
      assert indexes[frontier] in indexes;
      if !ready[indexes[frontier]] {
        return;
      }
      var resolved := buffered[indexes[frontier]];
      RoundCommits(d0, p.TheDeck(), job, indexes, arrivals, frontier, ready, buffered, results);
      CommitOne(p, job, resolved);
      results := results[resolved.index := resolved];
      frontier := frontier + 1;
    }
  }

  /** Records one result, buffers it, and publishes what it makes ready. */
  method Receive(p: GuildPlayer, job: nat, indexes: seq<nat>, from: nat, ready: seq<bool>, buffered: seq<Result>,
                 r: Result, ghost arrivals: seq<Arrival>, ghost d0: Deck, ghost before: Results)
    returns (frontier: nat, ready': seq<bool>, buffered': seq<Result>, ghost results: Results)
    requires p.Valid() && !p.providerBlocked
    requires Round(d0, p.TheDeck(), job, indexes, arrivals, from, ready, buffered, before)
    requires r.index in indexes && r.index !in before
    modifies p`queue, p`jobs
    ensures p.Valid()
    ensures Round(d0, p.TheDeck(), job, indexes, arrivals + [Arrived(r)], frontier, ready', buffered', results)
    ensures Stopped(indexes, frontier, ready')
  {
    RoundArrived(d0, p.TheDeck(), job, indexes, arrivals, from, ready, buffered, before, r);
    RecordOne(p, job, r);
    ready', buffered' := ready[r.index := true], buffered[r.index := r];
    frontier, results := PublishReady(p, job, indexes, from, ready', buffered', arrivals + [Arrived(r)], d0, before);
  }

  /**
   Publishes one window: results are buffered as they arrive and committed only as a growing prefix
   of the window, so the queue ends as if the searches had finished in order.
   */
  method PublishWindow(p: GuildPlayer, job: nat, indexes: seq<nat>, arrivals: seq<Arrival>)
    returns (frontier: nat, blocked: bool, ghost results: Results)
    requires p.Valid() && !p.providerBlocked && Slotted(p.TheDeck(), job, indexes) && Complete(indexes, arrivals)
    modifies p`queue, p`jobs
    ensures p.Valid() && Prefix(indexes, frontier, arrivals, results)
    ensures Maximal(indexes, frontier, arrivals)
    ensures Published(old(p.TheDeck()), p.TheDeck(), job, results)
    ensures Recorded(old(p.jobs), p.jobs, job, arrivals)
    ensures !blocked ==> frontier == |indexes|
  {
    ghost var d0 := p.TheDeck();
    var total := Min(|p.jobs[job].wanted|, |p.jobs[job].recorded|);
    var ready := Flags(total, false);
    var buffered := seq(total, i => Result(0, Track(0, false, 0, 0), false, false));
    frontier, blocked, results := 0, false, map[];
    RoundStarts(d0, job, indexes, ready, buffered);
    for n := 0 to |arrivals|
      invariant p.Valid() && Round(d0, p.TheDeck(), job, indexes, arrivals[..n], frontier, ready, buffered, results)
      invariant Stopped(indexes, frontier, ready)
      invariant !blocked ==> forall m | 0 <= m < n :: arrivals[m].Arrived?
    {
      var a := arrivals[n];
      PlaceIsNew(indexes, frontier, arrivals, n, results);
      if a.BlockedAt? {
        RoundBlocked(d0, p.TheDeck(), job, indexes, arrivals[..n], frontier, ready, buffered, results, a);
        blocked := true;
      } else {
        frontier, ready, buffered, results :=
          Receive(p, job, indexes, frontier, ready, buffered, a.result, arrivals[..n], d0, results);
      }
    }
    assert arrivals[..|arrivals|] == arrivals;
    if frontier < |indexes| {
      NotArrived(indexes, arrivals, indexes[frontier]);
    }
  }

  lemma NotArrived(indexes: seq<nat>, arrivals: seq<Arrival>, i: nat)
    requires Complete(indexes, arrivals) && i in indexes && Answer(arrivals, i).None?
    ensures exists n :: 0 <= n < |arrivals| && arrivals[n].BlockedAt?
  {
    var n :| 0 <= n < |arrivals| && Place(arrivals[n]) == i;
    AnswerOf(arrivals, n);
  }

  lemma PlaceIsNew(indexes: seq<nat>, frontier: nat, arrivals: seq<Arrival>, n: nat, results: Results)
    requires n < |arrivals| && Prefix(indexes, frontier, arrivals[..n], results) && Complete(indexes, arrivals)
    ensures Place(arrivals[n]) in indexes && Place(arrivals[n]) !in results
    ensures arrivals[..n + 1] == arrivals[..n] + [arrivals[n]]
  {
    if Place(arrivals[n]) in results {
      ArrivesOnce(arrivals, n, Place(arrivals[n]));
    }
  }

  /** Committing results one after the other, in any order of distinct positions, publishes them. */
  function CommitAll(d: Deck, job: nat, rs: seq<Result>): Deck {
    if rs == [] then d else Commit(CommitAll(d, job, rs[..|rs| - 1]), job, rs[|rs| - 1])
  }

  function ByPosition(rs: seq<Result>): Results {
    if rs == [] then map[] else ByPosition(rs[..|rs| - 1])[rs[|rs| - 1].index := rs[|rs| - 1]]
  }

  lemma {:induction false} ByPositionKeys(rs: seq<Result>)
    ensures forall i :: i in ByPosition(rs) <==> exists n :: 0 <= n < |rs| && rs[n].index == i
  {
    if rs != [] {
      ByPositionKeys(rs[..|rs| - 1]);
    }
  }

  /** The sequential meaning of a window: the fold of its commits is what PublishWindow publishes. */
  lemma {:induction false} FoldPublishes(d: Deck, job: nat, rs: seq<Result>)
    requires Running(d, job)
    requires forall m, n | 0 <= m < n < |rs| :: rs[m].index != rs[n].index
    requires forall n | 0 <= n < |rs| ::
      Tally(d.queue, Slot(job, rs[n].index)) == 1 && rs[n].index < |d.jobs[job].wanted|
    ensures Published(d, CommitAll(d, job, rs), job, ByPosition(rs))
  {
    if rs == [] {
      PublishNone(d.queue, job, map[]);
    } else {
      var init, last := rs[..|rs| - 1], rs[|rs| - 1];
      FoldPublishes(d, job, init);
      ByPositionKeys(init);
      CommitKeepsPublished(d, CommitAll(d, job, init), job, ByPosition(init), last);
    }
  }

  /** The published results, in the order of the window. */
  function InOrder(indexes: seq<nat>, results: Results): (rs: seq<Result>)
    requires forall i | i in indexes :: i in results
    ensures |rs| == |indexes| && forall k | 0 <= k < |indexes| :: rs[k] == results[indexes[k]]
  {
    seq(|indexes|, k requires 0 <= k < |indexes| => results[indexes[k]])
  }

  /** Whatever order the searches finished in, the queue is the fold of the commits in window order. */
  lemma PublishedInOrder(d0: Deck, d: Deck, job: nat, indexes: seq<nat>, frontier: nat,
        arrivals: seq<Arrival>, results: Results)
    requires Slotted(d0, job, indexes) && Prefix(indexes, frontier, arrivals, results) && Published(d0, d, job, results)
    ensures d.queue == CommitAll(d0, job, InOrder(indexes[..frontier], results)).queue
  {
    var done := indexes[..frontier];
    var rs := InOrder(done, results);
    forall k | 0 <= k < |rs|
      ensures rs[k].index == indexes[k]
    {
      assert done[k] in done;
      AnswerFrom(arrivals, indexes[k]);
    }
    forall k | 0 <= k < |rs|
      ensures Tally(d0.queue, Slot(job, rs[k].index)) == 1 && rs[k].index < |d0.jobs[job].wanted|
    {
      assert indexes[k] in indexes;
    }
    FoldPublishes(d0, job, rs);
    SameResults(done, results, rs);
  }

  lemma {:induction false} ByPositionLast(rs: seq<Result>, k: nat)
    requires k < |rs| && forall m, n | 0 <= m < n < |rs| :: rs[m].index != rs[n].index
    ensures rs[k].index in ByPosition(rs) && ByPosition(rs)[rs[k].index] == rs[k]
  {
    if k < |rs| - 1 {
      ByPositionLast(rs[..|rs| - 1], k);
    }
  }

  lemma SameResults(done: seq<nat>, results: Results, rs: seq<Result>)
    requires Distinct(done) && (forall i :: i in results <==> i in done) && |rs| == |done|
    requires forall k | 0 <= k < |done| :: rs[k] == results[done[k]] && rs[k].index == done[k]
    ensures ByPosition(rs) == results
  {
    ByPositionKeys(rs);
    forall i | i in results
      ensures i in ByPosition(rs) && ByPosition(rs)[i] == results[i]
    {
      var k :| 0 <= k < |done| && done[k] == i;
      ByPositionLast(rs, k);
    }
    forall i | i in ByPosition(rs)
      ensures i in results
    {
      var k :| 0 <= k < |rs| && rs[k].index == i;
      assert done[k] in done;
    }
  }

  // ---------------------------------------------------------------------------
  // Choosing the window
  // ---------------------------------------------------------------------------

  /** The positions, in queue order, of the job's pending slots among its first six that are in reach. */
  function Window(q: Queue, job: nat, reach: set<nat>): seq<nat> {
    if q == [] then []
    else
      var init, e := q[..|q| - 1], q[|q| - 1];
      Window(init, job, reach) +
        if e.job == job && e.pending && e.position in reach && Of(init, job) < PREFETCH then [e.position] else []
  }

  /** How many slots the job has. */
  function Of(q: Queue, job: nat): nat {
    if q == [] then 0 else Of(q[..|q| - 1], job) + if q[|q| - 1].job == job then 1 else 0
  }

  function PendingOf(q: Queue, job: nat): nat {
    if q == [] then 0
    else PendingOf(q[..|q| - 1], job) + if q[|q| - 1].job == job && q[|q| - 1].pending then 1 else 0
  }

  /** `reach` holds the wanted positions within the horizon. */
  method ChooseWindow(p: GuildPlayer, job: nat, reach: set<nat>) returns (indexes: seq<nat>, remaining: nat)
    ensures indexes == Window(p.queue, job, reach) && remaining == PendingOf(p.queue, job)
  {
    indexes, remaining := [], 0;
    var window := 0;
    for n := 0 to |p.queue|
      invariant indexes == Window(p.queue[..n], job, reach)
      invariant remaining == PendingOf(p.queue[..n], job) && window == Of(p.queue[..n], job)
    {
      var entry := p.queue[n];
      assert p.queue[..n + 1][..n] == p.queue[..n];
      if entry.job == job {
        if entry.pending {
          remaining := remaining + 1;
        }
        if window < PREFETCH && entry.position in reach && entry.pending {
          indexes := indexes + [entry.position];
        }
        window := window + 1;
      }
    }
    assert p.queue[..|p.queue|] == p.queue;
  }

  /** The job's slots before this place. */
  function Before(q: Queue, job: nat, k: nat): set<nat>
    requires k <= |q|
  {
    set m: nat | m < k && q[m].job == job
  }

  /** A pending slot of the job in reach, with fewer than six of its slots before it. */
  predicate Due(q: Queue, job: nat, reach: set<nat>, k: nat)
    requires k < |q|
  {
    q[k].job == job && q[k].pending && q[k].position in reach && |Before(q, job, k)| < 6
  }

  lemma {:induction false} OfCounts(q: Queue, job: nat)
    ensures Of(q, job) == |Before(q, job, |q|)|
  {
    if q != [] {
      var init := q[..|q| - 1];
      OfCounts(init, job);
      assert Before(init, job, |init|) == Before(q, job, |init|);
      assert Before(q, job, |q|) == Before(q, job, |init|) + if q[|init|].job == job then {|init|} else {};
    }
  }

  /** These are the places of the due slots, in queue order, and these their positions. */
  predicate Names(q: Queue, job: nat, reach: set<nat>, places: seq<nat>, window: seq<nat>) {
    && |places| == |window|
    && (forall n | 0 <= n < |places| :: places[n] < |q| && window[n] == q[places[n]].position)
    && (forall m, n | 0 <= m < n < |places| :: places[m] < places[n])
    && (forall k: nat | k < |q| :: k in places <==> Due(q, job, reach, k))
  }

  lemma DueStays(q: Queue, job: nat, reach: set<nat>, e: Entry, k: nat)
    requires k < |q|
    ensures Due(q + [e], job, reach, k) == Due(q, job, reach, k)
  {
    assert Before(q + [e], job, k) == Before(q, job, k);
  }

  lemma NamesMore(q: Queue, job: nat, reach: set<nat>, places: seq<nat>, window: seq<nat>, e: Entry)
    requires Names(q, job, reach, places, window)
    ensures Names(q + [e], job, reach, if Due(q + [e], job, reach, |q|) then places + [|q|] else places,
                  if Due(q + [e], job, reach, |q|) then window + [e.position] else window)
  {
    var due := Due(q + [e], job, reach, |q|);
    var more := if due then places + [|q|] else places;
    forall k: nat | k <= |q|
      ensures k in more <==> if k == |q| then due else k in places
    {
      assert |q| !in places;
    }
    forall k: nat | k < |q|
      ensures k in more <==> Due(q + [e], job, reach, k)
    {
      DueStays(q, job, reach, e, k);
    }
  }

  lemma WindowMore(q: Queue, job: nat, reach: set<nat>, e: Entry)
    ensures Window(q + [e], job, reach) ==
      if Due(q + [e], job, reach, |q|) then Window(q, job, reach) + [e.position] else Window(q, job, reach)
  {
    OfCounts(q, job);
    assert Before(q + [e], job, |q|) == Before(q, job, |q|);
    assert (q + [e])[..|q|] == q;
  }

  lemma OneMoreDue(q: Queue, job: nat, reach: set<nat>, before: seq<nat>, e: Entry) returns (places: seq<nat>)
    requires Names(q, job, reach, before, Window(q, job, reach))
    ensures Names(q + [e], job, reach, places, Window(q + [e], job, reach))
  {
    NamesMore(q, job, reach, before, Window(q, job, reach), e);
    WindowMore(q, job, reach, e);
    places := if Due(q + [e], job, reach, |q|) then before + [|q|] else before;
  }

  /** The window names exactly the due slots, in queue order. */
  lemma {:induction false} WindowIsDue(q: Queue, job: nat, reach: set<nat>) returns (places: seq<nat>)
    ensures Names(q, job, reach, places, Window(q, job, reach))
  {
    if q == [] {
      places := [];
    } else {
      places := WindowIsDue(q[..|q| - 1], job, reach);
      places := OneMoreDue(q[..|q| - 1], job, reach, places, q[|q| - 1]);
      assert q[..|q| - 1] + [q[|q| - 1]] == q;
    }
  }

  /** The job's pending slots before this place. */
  function PendingBefore(q: Queue, job: nat, k: nat): set<nat>
    requires k <= |q|
  {
    set m: nat | m < k && q[m].job == job && q[m].pending
  }

  /** What remains is the number of the job's pending slots. */
  lemma {:induction false} RemainingIsPending(q: Queue, job: nat)
    ensures PendingOf(q, job) == |PendingBefore(q, job, |q|)|
  {
    if q != [] {
      var init := q[..|q| - 1];
      RemainingIsPending(init, job);
      assert PendingBefore(init, job, |init|) == PendingBefore(q, job, |init|);
      assert PendingBefore(q, job, |q|) ==
        PendingBefore(q, job, |init|) + if q[|init|].job == job && q[|init|].pending then {|init|} else {};
    }
  }

  lemma {:induction false} WindowSlots(q: Queue, job: nat, reach: set<nat>)
    ensures |Window(q, job, reach)| <= Min(Of(q, job), PREFETCH)
    ensures forall i | i in Window(q, job, reach) :: i in reach && Tally(q, Slot(job, i)) > 0
    ensures (forall i: nat :: Tally(q, Slot(job, i)) <= 1) ==> Distinct(Window(q, job, reach))
  {
    if q != [] {
      var init, e := q[..|q| - 1], q[|q| - 1];
      WindowSlots(init, job, reach);
      forall i: nat
        ensures Tally(q, Slot(job, i)) == Tally(init, Slot(job, i)) + if AtSlot(e, job, i) then 1 else 0
      {
      }
    }
  }

  /** The positions chosen are pending, so that their commits are due. */
  lemma {:induction false} WindowIsPending(q: Queue, job: nat, reach: set<nat>, i: nat)
    requires i in Window(q, job, reach)
    ensures Progress.PendingSlot(q, job, i)
  {
    var init, e := q[..|q| - 1], q[|q| - 1];
    assert q == init + [e];
    if i in Window(init, job, reach) {
      WindowIsPending(init, job, reach, i);
      var x :| x in init && AtSlot(x, job, i) && x.pending;
      assert x in q;
    } else {
      assert e in q;
    }
  }

  /** In a sound player a window chosen among wanted positions is fit to be searched and published. */
  lemma WindowIsSlotted(d: Deck, job: nat, reach: set<nat>)
    requires Sound(d) && Running(d, job) && |d.jobs[job].recorded| == |d.jobs[job].wanted|
    requires forall i | i in reach :: i < |d.jobs[job].wanted| && d.jobs[job].wanted[i]
    ensures Slotted(d, job, Window(d.queue, job, reach))
  {
    WindowSlots(d.queue, job, reach);
  }

  // ---------------------------------------------------------------------------
  // The counters of a job
  // ---------------------------------------------------------------------------

  function Trues(flags: seq<bool>): (n: nat)
    ensures n <= |flags|
  {
    if flags == [] then 0 else Trues(flags[..|flags| - 1]) + if flags[|flags| - 1] then 1 else 0
  }

  lemma {:induction false} TruesSet(flags: seq<bool>, i: nat)
    requires i < |flags| && !flags[i]
    ensures Trues(flags[i := true]) == Trues(flags) + 1
  {
    var n := |flags| - 1;
    if i < n {
      TruesSet(flags[..n], i);
      assert flags[i := true][..n] == flags[..n][i := true];
    } else {
      assert flags[i := true][..n] == flags[..n];
    }
  }

  lemma {:induction false} TruesNone(n: nat)
    ensures Trues(Flags(n, false)) == 0
  {
    if n > 0 {
      TruesNone(n - 1);
      assert Flags(n, false)[..n - 1] == Flags(n - 1, false);
    }
  }

  /** Resolved, failed and skipped together count the recorded positions, of which there are no more than the total. */
  predicate Counted(j: Job) {
    |j.recorded| == |j.wanted| && j.resolved + j.failed + j.skipped == Trues(j.recorded)
  }

  ghost predicate AllCounted(jobs: Jobs) {
    forall id | id in jobs :: Counted(jobs[id])
  }

  lemma {:induction false} DiscardCounted(jobs: Jobs, dropped: Queue)
    requires AllCounted(jobs)
    ensures AllCounted(DiscardAll(jobs, dropped))
  {
    if dropped != [] {
      DiscardCounted(jobs, dropped[..|dropped| - 1]);
    }
  }

  lemma RecordCounted(d: Deck, job: nat, r: Result)
    requires AllCounted(d.jobs)
    ensures AllCounted(Record(d, job, r).jobs)
  {
    if job in d.jobs && r.index < |d.jobs[job].recorded| && !d.jobs[job].recorded[r.index] {
      TruesSet(d.jobs[job].recorded, r.index);
    }
  }

  lemma EditCounted(s: Player, e: Edit)
    requires AllCounted(s.deck.jobs)
    ensures AllCounted(EditStep(s, e).deck.jobs)
  {
    match e
    case BeginCollection(tracks, _) => TruesNone(|tracks|);
    case JumpTo(position) =>
      if Upcoming(s.deck, position) { DiscardCounted(s.deck.jobs, s.deck.queue[..position - 1]); }
    case SkipN(count) =>
      if CanSkip(count) {
        var rest := if s.deck.current.Some? then count - 1 else count;
        DiscardCounted(s.deck.jobs, s.deck.queue[..Min(rest, |s.deck.queue|)]);
      }
    case _ =>
  }

  lemma PlayCounted(s: Player, p: Playing)
    requires AllCounted(s.deck.jobs)
    ensures AllCounted(PlayStep(s, p).deck.jobs)
  {
  }

  lemma ControlCounted(s: Player, c: Control)
    requires AllCounted(s.deck.jobs)
    ensures AllCounted(ControlStep(s, c).deck.jobs)
  {
  }

  lemma ResolveCounted(s: Player, r: Resolving)
    requires AllCounted(s.deck.jobs)
    ensures AllCounted(ResolveStep(s, r).deck.jobs)
  {
    if r.RecordResult? {
      RecordCounted(s.deck, r.job, r.result);
    }
  }

  lemma StepCounted(s: Player, e: Event)
    requires AllCounted(s.deck.jobs)
    ensures AllCounted(Step(s, e).deck.jobs)
  {
    match e
    case E(edit) => EditCounted(s, edit);
    case C(control) => ControlCounted(s, control);
    case P(playing) => PlayCounted(s, playing);
    case R(resolving) => ResolveCounted(s, resolving);
    case _ =>
  }

  /** In every run every job's counters add up to its recorded positions, at most its total. */
  lemma {:induction false} RunCounted(states: seq<Player>, events: seq<Event>, n: nat)
    requires Run(states, events) && AllCounted(states[0].deck.jobs) && n <= |events|
    ensures forall id | id in states[n].deck.jobs ::
      var j := states[n].deck.jobs[id];
      Counted(j) && j.resolved + j.failed + j.skipped <= |j.wanted|
  {
    if n > 0 {
      RunCounted(states, events, n - 1);
      StepCounted(states[n - 1], events[n - 1]);
    }
  }
}
