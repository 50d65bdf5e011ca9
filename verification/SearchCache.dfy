/**
 The bounded search cache with shared flights: identical concurrent misses share one
 search, and a search that every caller has left never reaches the cache.
 */
module SearchCache {
  import opened Prelude

  const TTL := 600
  const LEASE := TTL
  const LIMIT := 256

  /** Entries under the video-proof prefix carry a leased identity proof. */
  datatype Key = Query(text: string) | VideoProof(text: string)

  /** A search result; `checkedAt` is the time of its identity proof, if it has one. */
  datatype Track = Track(id: int, checkedAt: Option<int>)

  datatype Entry = Entry(track: Track, expires: int)

  type Entries = map<Key, Entry>

  datatype Flight = Flight(key: Key, waiters: int, done: bool, canceled: bool)

  function Expiry(key: Key, track: Track, now: int): int {
    if key.VideoProof? && track.checkedAt.Some? then Min(now + TTL, track.checkedAt.value + LEASE) else now + TTL
  }

  predicate Fresh(entries: Entries, key: Key, now: int) {
    key in entries && now < entries[key].expires
  }

  function Live(entries: Entries, now: int): Entries {
    map k | k in entries && now < entries[k].expires :: entries[k]
  }

  /** The victim expires no later than any other entry. */
  ghost predicate Oldest(entries: Entries, victim: Key) {
    victim in entries && forall k | k in entries :: entries[victim].expires <= entries[k].expires
  }

  /** Storing a result drops expired entries and, when there is no room, one that expires first. */
  ghost predicate Puts(before: Entries, key: Key, track: Track, now: int, after: Entries) {
    var live := Live(before, now);
    var entry := Entry(track, Expiry(key, track, now));
    if key in live || |live| < LIMIT then after == live[key := entry]
    else exists victim :: Oldest(live, victim) && after == (live - {victim})[key := entry]
  }

  // ---------------------------------------------------------------------------
  // Interleavings of callers and searches
  // ---------------------------------------------------------------------------

  datatype Board = Board(
    flights: map<Key, nat>,     // the flight a new caller would join
    table: map<nat, Flight>,    // every flight ever started
    joined: map<nat, nat>)      // callers waiting, with their flights

  datatype State = State(entries: Entries, board: Board)

  datatype Event =
    | Lookup(key: Key, now: int)
    | Store(key: Key, track: Track, now: int)
    | Join(caller: nat, key: Key, now: int, valid: Track -> bool, id: nat)
    | Complete(id: nat, result: Option<Track>, now: int)
    | Leave(caller: nat)
    | Invalidate(key: Key)

  /** A caller finds a usable entry and does not join a flight. */
  predicate Hits(s: State, key: Key, now: int, valid: Track -> bool) {
    Fresh(s.entries, key, now) && valid(s.entries[key].track)
  }

  predicate Enabled(b: Board, e: Event) {
    match e
    case Join(caller, _, _, _, id) => caller !in b.joined && id !in b.table
    case Complete(id, _, _) => id in b.table && !b.table[id].done
    case Leave(caller) => caller in b.joined && b.joined[caller] in b.table
    case _ => true
  }

  predicate Published(b: Board, id: nat)
    requires id in b.table
  {
    var key := b.table[id].key;
    key in b.flights && b.flights[key] == id
  }

  function Withdraw(b: Board, id: nat): map<Key, nat>
    requires id in b.table
  {
    if Published(b, id) then b.flights - {b.table[id].key} else b.flights
  }

  /** `id` names the flight a miss starts when there is none for the key. */
  function AfterJoin(b: Board, caller: nat, key: Key, id: nat): Board {
    if key in b.flights && b.flights[key] in b.table then
      var f := b.flights[key];
      b.(table := b.table[f := b.table[f].(waiters := b.table[f].waiters + 1)], joined := b.joined[caller := f])
    else
      Board(b.flights[key := id], b.table[id := Flight(key, 1, false, false)], b.joined[caller := id])
  }

  function AfterComplete(b: Board, id: nat): Board
    requires id in b.table
  {
    b.(table := b.table[id := b.table[id].(done := true)], flights := Withdraw(b, id))
  }

  function AfterLeave(b: Board, caller: nat): Board
    requires caller in b.joined && b.joined[caller] in b.table
  {
    var id := b.joined[caller];
    var f := b.table[id].(waiters := b.table[id].waiters - 1);
    var last := f.waiters == 0;
    Board(if last then Withdraw(b, id) else b.flights,
          b.table[id := if last then f.(canceled := true) else f],
          b.joined - {caller})
  }

  ghost predicate Next(s: State, e: Event, t: State)
    requires Enabled(s.board, e)
  {
    match e
    case Lookup(key, now) =>
      t == if Fresh(s.entries, key, now) then s else s.(entries := s.entries - {key})
    case Store(key, track, now) =>
      Puts(s.entries, key, track, now, t.entries) && t.board == s.board
    case Join(caller, key, now, valid, id) =>
      t == if Hits(s, key, now, valid) then s else s.(board := AfterJoin(s.board, caller, key, id))
    case Complete(id, result, now) =>
      var f := s.board.table[id];
      && t.board == AfterComplete(s.board, id)
      && if Published(s.board, id) && result.Some? && !f.canceled
           then Puts(s.entries, f.key, result.value, now, t.entries)
         else t.entries == s.entries
    case Leave(caller) => t == s.(board := AfterLeave(s.board, caller))
    case Invalidate(key) => t == s.(entries := s.entries - {key})
  }

  class Cache {
    var entries: Entries
    var flights: map<Key, nat>
    var table: map<nat, Flight>
    var joined: map<nat, nat>

    function Model(): State
      reads this
    {
      State(entries, Board(flights, table, joined))
    }

    constructor ()
      ensures Model() == State(map[], Board(map[], map[], map[]))
    {
      entries, flights, table, joined := map[], map[], map[], map[];
    }

    method Get(key: Key, now: int) returns (found: Option<Track>)
      modifies this`entries
      ensures Next(old(Model()), Lookup(key, now), Model())
      ensures found == if Fresh(old(entries), key, now) then Some(old(entries)[key].track) else None
    {
      if key !in entries || now >= entries[key].expires {
        entries := entries - {key};
        return None;
      }
      return Some(entries[key].track);
    }

    method Purge(now: int)
      modifies this`entries
      ensures entries == Live(old(entries), now)
    {
      var keys := entries.Keys;
      while keys != {}
        invariant keys <= entries.Keys <= old(entries).Keys
        invariant forall k | k in entries :: entries[k] == old(entries)[k]
        invariant forall k | k in old(entries) && k !in keys :: k in entries <==> now < old(entries)[k].expires
        decreases keys
      {
        var k :| k in keys;
        keys := keys - {k};
        if now >= entries[k].expires {
          entries := entries - {k};
        }
      }
    }

    method Put(key: Key, track: Track, now: int)
      modifies this`entries
      ensures Puts(old(entries), key, track, now, entries)
    {
      Purge(now);
      if key !in entries && |entries| >= LIMIT {
        var oldest := OldestKey();
        entries := entries - {oldest};
      }
      var expires := now + TTL;
      if key.VideoProof? && track.checkedAt.Some? {
        var proofExpiry := track.checkedAt.value + LEASE;
        if proofExpiry < expires {
          expires := proofExpiry;
        }
      }
      entries := entries[key := Entry(track, expires)];
    }

    /** The eviction loop; ties go to whichever entry the iteration meets first. */
    method OldestKey() returns (oldest: Key)
      requires entries != map[]
      ensures Oldest(entries, oldest)
    {
      var keys := entries.Keys;
      oldest :| oldest in keys;
      keys := keys - {oldest};
      while keys != {}
        invariant keys <= entries.Keys && oldest in entries
        invariant forall k | k in entries && k !in keys :: entries[oldest].expires <= entries[k].expires
        decreases keys
      {
        var k :| k in keys;
        keys := keys - {k};
        if entries[k].expires < entries[oldest].expires {
          oldest := k;
        }
      }
    }

    method JoinFlight(caller: nat, key: Key, now: int, valid: Track -> bool, id: nat) returns (hit: Option<Track>)
      requires Enabled(Model().board, Join(caller, key, now, valid, id)) && FlightsLive(Model().board)
      modifies this
      ensures Next(old(Model()), Join(caller, key, now, valid, id), Model())
      ensures hit == if Hits(old(Model()), key, now, valid) then Some(old(entries)[key].track) else None
    {
      if key in entries && now < entries[key].expires && valid(entries[key].track) {
        return Some(entries[key].track);
      }
      var flight := id;
      if key in flights {
        flight := flights[key];
      } else {
        flights := flights[key := id];
        table := table[id := Flight(key, 0, false, false)];
      }
      table := table[flight := table[flight].(waiters := table[flight].waiters + 1)];
      joined := joined[caller := flight];
      return None;
    }

    /** The search goroutine has finished with a result or an error. */
    method Land(id: nat, result: Option<Track>, now: int)
      requires Enabled(Model().board, Complete(id, result, now))
      modifies this
      ensures Next(old(Model()), Complete(id, result, now), Model())
    {
      var key := table[id].key;
      if key in flights && flights[key] == id {
        if result.Some? && !table[id].canceled {
          Put(key, result.value, now);
        }
        flights := flights - {key};
      }
      table := table[id := table[id].(done := true)];
    }

    method LeaveFlight(caller: nat)
      requires Enabled(Model().board, Leave(caller))
      modifies this
      ensures Next(old(Model()), Leave(caller), Model())
    {
      var id := joined[caller];
      joined := joined - {caller};
      table := table[id := table[id].(waiters := table[id].waiters - 1)];
      if table[id].waiters == 0 {
        var key := table[id].key;
        if key in flights && flights[key] == id {
          flights := flights - {key};
        }
        table := table[id := table[id].(canceled := true)];
      }
    }
  }

  // ---------------------------------------------------------------------------
  // Invariants
  // ---------------------------------------------------------------------------

  ghost function Waiting(b: Board, id: nat): set<nat> {
    set c | c in b.joined && b.joined[c] == id
  }

  /** Waiters are exactly the callers that joined and have not left. */
  ghost predicate WaitersCounted(b: Board) {
    && (forall id | id in b.table :: b.table[id].waiters == |Waiting(b, id)|)
    && (forall c | c in b.joined :: b.joined[c] in b.table)
  }

  /** The flight offered for a key is the one search for it that is neither finished nor abandoned. */
  ghost predicate FlightsLive(b: Board) {
    && (forall k | k in b.flights :: b.flights[k] in b.table && b.table[b.flights[k]].key == k)
    && (forall id | id in b.table :: Published(b, id) <==> !b.table[id].done && !b.table[id].canceled)
  }

  ghost predicate EntriesBounded(entries: Entries) {
    |entries| <= LIMIT && forall k | k in entries :: Leased(k, entries[k])
  }

  ghost predicate Leased(key: Key, entry: Entry) {
    key.VideoProof? && entry.track.checkedAt.Some? ==> entry.expires <= entry.track.checkedAt.value + LEASE
  }

  ghost predicate Valid(s: State) {
    WaitersCounted(s.board) && FlightsLive(s.board) && EntriesBounded(s.entries)
  }

  lemma Sizes(m: Entries, key: Key, entry: Entry)
    ensures |m[key := entry]| == if key in m then |m| else |m| + 1
    ensures |m - {key}| == if key in m then |m| - 1 else |m|
  {
    assert m[key := entry].Keys == m.Keys + {key};
    assert (m - {key}).Keys == m.Keys - {key};
  }

  lemma PutsBounded(before: Entries, key: Key, track: Track, now: int, after: Entries)
    requires EntriesBounded(before) && Puts(before, key, track, now, after)
    ensures EntriesBounded(after)
  {
    var live := Live(before, now);
    SmallerMap(live, before);
    var entry := Entry(track, Expiry(key, track, now));
    Sizes(live, key, entry);
    if key !in live && |live| >= LIMIT {
      var victim :| Oldest(live, victim) && after == (live - {victim})[key := entry];
      Sizes(live, victim, entry);
      Sizes(live - {victim}, key, entry);
    }
    assert Leased(key, entry);
    forall k | k in after
      ensures Leased(k, after[k])
    {
      assert k != key ==> k in before && after[k] == before[k];
    }
  }

  lemma SmallerMap(a: Entries, b: Entries)
    requires a.Keys <= b.Keys
    ensures |a| <= |b|
  {
    assert b.Keys == a.Keys + (b.Keys - a.Keys);
  }

  lemma JoinKept(b: Board, caller: nat, key: Key, id: nat)
    requires WaitersCounted(b) && FlightsLive(b) && caller !in b.joined && id !in b.table
    ensures WaitersCounted(AfterJoin(b, caller, key, id)) && FlightsLive(AfterJoin(b, caller, key, id))
  {
    if key in b.flights {
      JoinCounted(b, AfterJoin(b, caller, key, id), caller, b.flights[key]);
    } else {
      var started := Board(b.flights[key := id], b.table[id := Flight(key, 0, false, false)], b.joined);
      forall i | i in started.table
        ensures started.table[i].waiters == |Waiting(started, i)|
      {
        assert Waiting(started, i) == Waiting(b, i);
        assert i == id ==> Waiting(b, i) == {};
      }
      JoinCounted(started, AfterJoin(b, caller, key, id), caller, id);
    }
  }

  lemma JoinCounted(b: Board, t: Board, caller: nat, f: nat)
    requires WaitersCounted(b) && caller !in b.joined && f in b.table && t.joined == b.joined[caller := f]
    requires t.table == b.table[f := b.table[f].(waiters := b.table[f].waiters + 1)]
    ensures WaitersCounted(t)
  {
    forall i | i in t.table
      ensures t.table[i].waiters == |Waiting(t, i)|
    {
      if i == f {
        assert Waiting(t, i) == Waiting(b, i) + {caller};
        assert caller !in Waiting(b, i);
      } else {
        assert Waiting(t, i) == Waiting(b, i);
      }
    }
  }

  lemma CompleteKept(b: Board, id: nat)
    requires WaitersCounted(b) && FlightsLive(b) && id in b.table
    ensures WaitersCounted(AfterComplete(b, id)) && FlightsLive(AfterComplete(b, id))
  {
    var t := AfterComplete(b, id);
    forall i | i in t.table
      ensures t.table[i].waiters == |Waiting(t, i)|
    {
      assert Waiting(t, i) == Waiting(b, i);
    }
  }

  lemma LeaveKept(b: Board, caller: nat)
    requires WaitersCounted(b) && FlightsLive(b) && caller in b.joined
    ensures WaitersCounted(AfterLeave(b, caller)) && FlightsLive(AfterLeave(b, caller))
  {
    var t := AfterLeave(b, caller);
    forall i | i in t.table
      ensures t.table[i].waiters == |Waiting(t, i)|
    {
      assert Waiting(t, i) == Waiting(b, i) - {caller};
      assert caller in Waiting(b, i) <==> i == b.joined[caller];
    }
  }

  /** Every step of every interleaving keeps the invariant. */
  lemma StepKeepsValid(s: State, e: Event, t: State)
    requires Enabled(s.board, e) && Next(s, e, t) && Valid(s)
    ensures Valid(t)
  {
    match e
    case Lookup(key, _) => SmallerMap(t.entries, s.entries);
    case Invalidate(key) => SmallerMap(t.entries, s.entries);
    case Store(key, track, now) => PutsBounded(s.entries, key, track, now, t.entries);
    case Join(caller, key, _, _, id) => JoinKept(s.board, caller, key, id);
    case Leave(caller) => LeaveKept(s.board, caller);
    case Complete(id, result, now) =>
      CompleteKept(s.board, id);
      if Published(s.board, id) && result.Some? && !s.board.table[id].canceled {
        PutsBounded(s.entries, s.board.table[id].key, result.value, now, t.entries);
      }
  }

  // ---------------------------------------------------------------------------
  // Runs
  // ---------------------------------------------------------------------------

  ghost predicate Executes(states: seq<State>, events: seq<Event>) {
    && |states| == |events| + 1
    && forall i | 0 <= i < |events| :: Enabled(states[i].board, events[i]) && Next(states[i], events[i], states[i + 1])
  }

  lemma {:induction false} RunValid(states: seq<State>, events: seq<Event>, i: nat)
    requires Executes(states, events) && Valid(states[0]) && i < |states|
    ensures Valid(states[i])
  {
    if i > 0 {
      RunValid(states, events, i - 1);
      StepKeepsValid(states[i - 1], events[i - 1], states[i]);
    }
  }

  lemma {:induction false} AbandonedForGood(states: seq<State>, events: seq<Event>, id: nat, i: nat, j: nat)
    requires Executes(states, events) && i <= j < |states|
    requires id in states[i].board.table && states[i].board.table[id].canceled
    ensures id in states[j].board.table && states[j].board.table[id].canceled
    decreases j
  {
    if i < j {
      AbandonedForGood(states, events, id, i, j - 1);
    }
  }

  /** A flight that its last waiter left never publishes, even if its search succeeds later. */
  lemma AbandonedNeverPublishes(states: seq<State>, events: seq<Event>, i: nat, j: nat, result: Track, now: int)
    requires Executes(states, events) && Valid(states[0]) && i < j < |events|
    requires events[i].Leave?
    requires var id := states[i].board.joined[events[i].caller];
      Waiting(states[i + 1].board, id) == {} && events[j] == Complete(id, Some(result), now)
    ensures states[j + 1].entries == states[j].entries
  {
    var id := states[i].board.joined[events[i].caller];
    RunValid(states, events, i);
    RunValid(states, events, i + 1);
    assert states[i + 1].board.table[id].waiters == 0;
    AbandonedForGood(states, events, id, i + 1, j);
    RunValid(states, events, j);
  }

  /** At no point of a run do two unfinished, unabandoned searches have the same key. */
  lemma SingleFlight(states: seq<State>, events: seq<Event>, i: nat, a: nat, b: nat)
    requires Executes(states, events) && Valid(states[0]) && i < |states|
    requires a in states[i].board.table && b in states[i].board.table
    requires states[i].board.table[a].key == states[i].board.table[b].key
    requires !states[i].board.table[a].done && !states[i].board.table[a].canceled
    requires !states[i].board.table[b].done && !states[i].board.table[b].canceled
    ensures a == b
  {
    RunValid(states, events, i);
    assert Published(states[i].board, a) && Published(states[i].board, b);
  }

  /** In every run the cache stays bounded and serves no identity proof past its lease. */
  lemma ProofsServedWithinLease(states: seq<State>, events: seq<Event>, i: nat, key: Key, now: int)
    requires Executes(states, events) && Valid(states[0]) && i < |states|
    ensures |states[i].entries| <= LIMIT
    ensures key.VideoProof? && Fresh(states[i].entries, key, now) && states[i].entries[key].track.checkedAt.Some? ==>
      now < states[i].entries[key].track.checkedAt.value + LEASE
  {
    RunValid(states, events, i);
  }
}
