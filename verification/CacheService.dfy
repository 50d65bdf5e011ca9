/**
 That the cache serves what was found: a result is served from when it arrives until it expires, is replaced, is
 invalidated or makes room for another.
 */
module CacheService {
  import opened Prelude
  import opened SearchCache

  /** Ten minutes from now, but an identity proof no longer than ten minutes from its check. */
  predicate WithinLifetime(key: Key, track: Track, stored: int, now: int) {
    && now < stored + 600
    && (key.VideoProof? && track.checkedAt.Some? ==> now < track.checkedAt.value + 600)
  }

  /** The entry that a lookup at this time would be served. */
  predicate Served(entries: Entries, key: Key, track: Track, now: int) {
    key in entries && entries[key].track == track && now < entries[key].expires
  }

  /** A stored result is served exactly within its lifetime. */
  lemma StoredIsServed(before: Entries, key: Key, track: Track, now: int, after: Entries, later: int)
    requires Puts(before, key, track, now, after)
    ensures Served(after, key, track, later) <==> WithinLifetime(key, track, now, later)
  {
  }

  predicate Unexpired(entries: Entries, key: Key, now: int) {
    key in entries && now < entries[key].expires
  }

  /** Storing drops what has expired, and otherwise leaves other results as they are. */
  lemma StoringDropsExpired(before: Entries, key: Key, track: Track, now: int, after: Entries, k: Key)
    requires Puts(before, key, track, now, after) && k != key && k in after
    ensures Unexpired(before, k, now) && after[k] == before[k]
  {
  }

  /**
   A result that has not expired is lost to another only when 256 are there already; it is then the only one lost, and
   none expires before it.
   */
  lemma StoringEvictsOne(before: Entries, key: Key, track: Track, now: int, after: Entries, k: Key, other: Key)
    requires Puts(before, key, track, now, after) && k != key && Unexpired(before, k, now) && k !in after
    ensures !Unexpired(before, key, now) && |Live(before, now)| >= 256
    ensures Unexpired(before, other, now) ==>
      before[k].expires <= before[other].expires && (other == k || other in after)
  {
    var live := Live(before, now);
    assert k in live;
    if key !in live && |live| >= LIMIT {
      var victim :| Oldest(live, victim) && after == (live - {victim})[key := Entry(track, Expiry(key, track, now))];
      assert victim == k;
      if Unexpired(before, other, now) {
        assert other in live;
      }
    }
  }

  /** A flight that succeeds while somebody waits for it is served to the next lookup, exactly within its lifetime. */
  lemma SuccessIsServed(s: State, id: nat, track: Track, now: int, t: State, later: int)
    requires Valid(s) && Enabled(s.board, Complete(id, Some(track), now)) && Next(s, Complete(id, Some(track), now), t)
    requires Waiting(s.board, id) != {} && !s.board.table[id].canceled
    ensures Served(t.entries, s.board.table[id].key, track, later) <==>
      WithinLifetime(s.board.table[id].key, track, now, later)
    ensures s.board.table[id].key !in t.board.flights
  {
    assert Published(s.board, id);
    StoredIsServed(s.entries, s.board.table[id].key, track, now, t.entries, later);
  }

  /** A flight that fails changes no entry, and its key may be searched again. */
  lemma FailureIsForgotten(s: State, id: nat, now: int, t: State)
    requires Valid(s) && Enabled(s.board, Complete(id, None, now)) && Next(s, Complete(id, None, now), t)
    ensures t.entries == s.entries
    ensures t.board.flights == if s.board.table[id].canceled then s.board.flights
      else s.board.flights - {s.board.table[id].key}
  {
    assert Published(s.board, id) <==> !s.board.table[id].canceled;
  }

  /** A caller that finds a usable result joins no flight; any other joins the running flight of its key, or its own. */
  lemma MissJoinsRunning(s: State, caller: nat, key: Key, now: int, valid: Track -> bool, id: nat, t: State)
    requires Valid(s) && Enabled(s.board, Join(caller, key, now, valid, id))
    requires Next(s, Join(caller, key, now, valid, id), t)
    ensures t.entries == s.entries
    ensures key in s.entries && now < s.entries[key].expires && valid(s.entries[key].track) ==> t == s
    ensures !(key in s.entries && now < s.entries[key].expires && valid(s.entries[key].track)) ==>
      && caller in t.board.joined
      && (forall f | f in s.board.table && s.board.table[f].key == key && !s.board.table[f].done
                     && !s.board.table[f].canceled :: t.board.joined[caller] == f)
      && (t.board.joined[caller] !in s.board.table ==> t.board.joined[caller] == id && t.board.table[id].key == key)
      && key in t.board.flights && t.board.flights[key] == t.board.joined[caller]
  {
    forall f | f in s.board.table && s.board.table[f].key == key && !s.board.table[f].done && !s.board.table[f].canceled
      ensures key in s.board.flights && s.board.flights[key] == f
    {
      assert Published(s.board, f);
    }
  }

  /** The last caller to leave abandons the flight; while another waits it goes on. */
  lemma LastLeaverAbandons(s: State, caller: nat, t: State)
    requires Valid(s) && Enabled(s.board, Leave(caller)) && Next(s, Leave(caller), t)
    ensures var id := s.board.joined[caller];
      && Waiting(t.board, id) == Waiting(s.board, id) - {caller}
      && (Waiting(t.board, id) == {} ==> t.board.table[id].canceled && !Published(t.board, id))
      && (Waiting(t.board, id) != {} ==> t.board.table[id].canceled == s.board.table[id].canceled
                                         && t.board.flights == s.board.flights)
      && t.entries == s.entries
  {
    var id := s.board.joined[caller];
    assert caller in Waiting(s.board, id);
    assert Waiting(t.board, id) == Waiting(s.board, id) - {caller};
    assert |Waiting(t.board, id)| == s.board.table[id].waiters - 1;
    assert Waiting(t.board, id) == {} <==> |Waiting(t.board, id)| == 0;
  }

  /** Nothing is served after an invalidation, and nothing else is lost by it. */
  lemma InvalidatedIsGone(s: State, key: Key, t: State)
    requires Next(s, Invalidate(key), t)
    ensures key !in t.entries && t.board == s.board
    ensures forall k | k != key ::
      (k in t.entries <==> k in s.entries) && (k in s.entries ==> t.entries[k] == s.entries[k])
  {
  }

  /** A lookup loses nothing that could be served. */
  lemma LookupLosesNothing(s: State, key: Key, now: int, t: State)
    requires Next(s, Lookup(key, now), t)
    ensures t.board == s.board
    ensures forall k, track | Served(s.entries, k, track, now) :: Served(t.entries, k, track, now)
    ensures forall k | k in t.entries :: k in s.entries && t.entries[k] == s.entries[k]
  {
  }
}
