/**
 Choosing one recording among search summaries, verifying at most three of them.

 Ranking scores and musical judgements are arbitrary functions of the candidate.
 */
module Discovery {
  import opened Prelude

  const MAX_VERIFICATIONS := 3
  const STRONG := 300

  type Candidate = nat

  /** What asking the provider about a candidate yields. */
  datatype Verification = Full(candidate: Candidate) | Outage | Interrupted | Unusable(error: nat)

  datatype Judge = Judge(
    admissible: Candidate -> bool,          // not rejected, and matching the requested track
    needsProof: Candidate -> bool,          // no music evidence yet, or only a provisional artist
    rank: Candidate -> int,                 // score of a summary
    verify: Candidate -> Verification,
    accept: Candidate -> Option<int>)       // score of full metadata that is music and matches

  datatype Ranked = Ranked(candidate: Candidate, score: int, verify: bool)

  datatype Outcome =
    | Selected(candidate: Candidate, score: int) | Canceled | Unavailable | NoSong | LastError(error: nat)

  /** The outcome, and the candidates asked about, in order. */
  datatype Search = Search(outcome: Outcome, asked: seq<Candidate>)

  // ---------------------------------------------------------------------------
  // Ranking and selection
  // ---------------------------------------------------------------------------

  function Summary(j: Judge, c: Candidate): Ranked {
    Ranked(c, j.rank(c), j.needsProof(c))
  }

  function RankAll(j: Judge, candidates: seq<Candidate>): seq<Ranked> {
    if candidates == [] then []
    else
      var last := candidates[|candidates| - 1];
      RankAll(j, candidates[..|candidates| - 1]) + if j.admissible(last) then [Summary(j, last)] else []
  }

  /** The first of the greatest scores. */
  ghost predicate IsBest(rs: seq<Ranked>, best: nat) {
    && best < |rs|
    && (forall r | r in rs :: r.score <= rs[best].score)
    && (forall i | 0 <= i < best :: rs[i].score < rs[best].score)
  }

  method Best(rs: seq<Ranked>) returns (best: nat)
    requires rs != []
    ensures IsBest(rs, best)
  {
    best := 0;
    for i := 0 to |rs|
      invariant best < |rs| && (i == 0 ==> best == 0) && (i > 0 ==> best < i)
      invariant forall k | 0 <= k < i :: rs[k].score <= rs[best].score
      invariant forall k | 0 <= k < best :: rs[k].score < rs[best].score
    {
      if rs[i].score > rs[best].score {
        best := i;
      }
    }
  }

  /** A strong confirmed candidate that nothing outranks; taken before any verification. */
  ghost predicate Immediate(rs: seq<Ranked>, i: nat) {
    && i < |rs| && !rs[i].verify && rs[i].score >= STRONG
    && (forall r | r in rs :: r.score <= rs[i].score)
    && (forall k | 0 <= k < i :: !rs[k].verify ==> rs[k].score < rs[i].score)
  }

  function Without(rs: seq<Ranked>, i: nat): seq<Ranked>
    requires i < |rs|
  {
    rs[..i] + rs[i + 1..]
  }

  ghost function Unverified(rs: seq<Ranked>): (n: nat)
    ensures n <= |rs|
  {
    if rs == [] then 0 else Unverified(rs[..|rs| - 1]) + if rs[|rs| - 1].verify then 1 else 0
  }

  method RankCandidates(j: Judge, candidates: seq<Candidate>) returns (remaining: seq<Ranked>)
    ensures remaining == RankAll(j, candidates)
  {
    remaining := [];
    assert candidates[..0] == [];
    for i := 0 to |candidates|
      invariant remaining == RankAll(j, candidates[..i])
    {
      var c := candidates[i];
      assert candidates[..i + 1][..i] == candidates[..i];
      if !j.admissible(c) {
        continue;
      }
      remaining := remaining + [Ranked(c, j.rank(c), j.needsProof(c))];
    }
    assert candidates[..|candidates|] == candidates;
  }

  /** The context may be canceled before any round of the verification loop. */
  method SelectDiscovered(j: Judge, candidates: seq<Candidate>, canceled: nat -> bool) returns (result: Search)
    ensures Justified(j, candidates, canceled, result)
    ensures var rs := RankAll(j, candidates);
      forall i: nat | Immediate(rs, i) :: result == Search(Selected(rs[i].candidate, rs[i].score), [])
  {
    var remaining := RankCandidates(j, candidates);
    RankedContents(j, candidates);
    var immediate := FindImmediate(remaining);
    if immediate.Some? {
      var r := remaining[immediate.value];
      assert r in remaining;
      assert forall c | c in candidates && j.admissible(c) :: Summary(j, c) in remaining;
      assert forall i: nat | Immediate(remaining, i) :: i == immediate.value;
      return Search(Selected(r.candidate, r.score), []);
    }
    result := VerifyBest(j, candidates, remaining, canceled);
  }

  /** The loop: each round selects the best, or drops it, or replaces its summary by what was fetched. */
  method VerifyBest(j: Judge, candidates: seq<Candidate>, ranked: seq<Ranked>, canceled: nat -> bool)
    returns (result: Search)
    requires Consistent(j, candidates, ranked, []) && |ranked| <= |candidates|
    ensures Justified(j, candidates, canceled, result)
  {
    var remaining, asked: seq<Candidate>, lastError: Option<nat>, round := ranked, [], None, 0;
    while remaining != []
      invariant Consistent(j, candidates, remaining, asked)
      invariant lastError == LastUnusable(j, asked)
      invariant round + |remaining| + Unverified(remaining) <= 2 * |candidates|
      decreases |remaining| + Unverified(remaining)
    {
      if canceled(round) {
        return Search(Canceled, asked);
      }
      round := round + 1;
      var best := Best(remaining);
      var chosen := remaining[best];
      assert chosen in remaining;
      CountWithout(remaining, best);
      if !chosen.verify {
        SelectionDominates(j, candidates, remaining, asked, best);
        return Search(Selected(chosen.candidate, chosen.score), asked);
      }
      if |asked| >= MAX_VERIFICATIONS {
        DropConsistent(j, candidates, remaining, asked, best);
        remaining := Without(remaining, best);
        continue;
      }
      ghost var before := asked;
      asked := asked + [chosen.candidate];
      var answer := j.verify(chosen.candidate);
      assert asked[..|before|] == before;
      if answer.Outage? {
        return Search(Unavailable, asked);
      }
      if answer.Interrupted? {
        return Search(Canceled, asked);
      }
      if answer.Unusable? {
        lastError := Some(answer.error);
      }
      if answer.Unusable? || j.accept(answer.candidate) == None {
        RefuseConsistent(j, candidates, remaining, before, best);
        remaining := Without(remaining, best);
        continue;
      }
      var full := Ranked(answer.candidate, j.accept(answer.candidate).value, false);
      CountUpdate(remaining, best, full);
      ReplaceConsistent(j, candidates, remaining, before, best, full);
      remaining := remaining[best := full];
    }
    EmptyFindsNothing(j, candidates, asked);
    if lastError.Some? {
      return Search(LastError(lastError.value), asked);
    }
    return Search(NoSong, asked);
  }

  /** The error of the last answer that was of no use, if any. */
  ghost function LastUnusable(j: Judge, asked: seq<Candidate>): Option<nat> {
    if asked == [] then None
    else
      match j.verify(asked[|asked| - 1])
      case Unusable(error) => Some(error)
      case _ => LastUnusable(j, asked[..|asked| - 1])
  }

  ghost predicate LastAnswer(j: Judge, asked: seq<Candidate>, answer: Verification) {
    asked != [] && j.verify(asked[|asked| - 1]) == answer
  }

  method FindImmediate(rs: seq<Ranked>) returns (found: Option<nat>)
    ensures found.Some? ==> Immediate(rs, found.value)
    ensures found == None ==> forall i :: !Immediate(rs, i)
  {
    var best := -1;
    for i := 0 to |rs|
      invariant -1 <= best < i
      invariant best < 0 ==> forall k | 0 <= k < i :: rs[k].verify || rs[k].score < STRONG
      invariant best >= 0 ==> !rs[best].verify && rs[best].score >= STRONG
      invariant best >= 0 ==> forall k | 0 <= k < i && !rs[k].verify :: rs[k].score <= rs[best].score
      invariant best >= 0 ==> forall k | 0 <= k < best && !rs[k].verify :: rs[k].score < rs[best].score
    {
      if !rs[i].verify && rs[i].score >= STRONG && (best < 0 || rs[i].score > rs[best].score) {
        best := i;
      }
    }
    if best < 0 {
      return None;
    }
    for i := 0 to |rs|
      invariant forall k | 0 <= k < i :: rs[k].score <= rs[best].score
    {
      if rs[i].score > rs[best].score {
        return None;
      }
    }
    return Some(best);
  }

  // ---------------------------------------------------------------------------
  // What a selection means
  // ---------------------------------------------------------------------------

  ghost predicate Confirmed(j: Judge, candidates: seq<Candidate>, c: Candidate) {
    c in candidates && j.admissible(c) && !j.needsProof(c)
  }

  /** Either a candidate with music evidence of its own, or full metadata that was fetched and accepted. */
  ghost predicate Trusted(j: Judge, candidates: seq<Candidate>, asked: seq<Candidate>, c: Candidate, score: int) {
    || (Confirmed(j, candidates, c) && score == j.rank(c))
    || Taken(j, asked, c, score)
  }

  /** Full metadata that was fetched and accepted as music, with this score. */
  ghost predicate Taken(j: Judge, asked: seq<Candidate>, c: Candidate, score: int) {
    exists a | a in asked :: j.verify(a) == Full(c) && j.accept(c) == Some(score)
  }

  /** No confirmed or accepted candidate outranks the score; another may only if asked about or the budget is spent. */
  ghost predicate Dominates(j: Judge, candidates: seq<Candidate>, asked: seq<Candidate>, score: int) {
    && (forall c | Confirmed(j, candidates, c) :: j.rank(c) <= score)
    && (forall c, t | Taken(j, asked, c, t) :: t <= score)
    && (|asked| < MAX_VERIFICATIONS ==>
          forall c | c in candidates && j.admissible(c) && j.needsProof(c) && c !in asked :: j.rank(c) <= score)
  }

  /** No candidate is confirmed or was accepted, and any left unasked is so because the budget is spent. */
  ghost predicate NothingFound(j: Judge, candidates: seq<Candidate>, asked: seq<Candidate>) {
    && (forall c :: !Confirmed(j, candidates, c))
    && (forall c, t :: !Taken(j, asked, c, t))
    && (|asked| < MAX_VERIFICATIONS ==> forall c | c in candidates && j.admissible(c) :: c in asked)
  }

  /** Verifications are spent only on admissible candidates without proof that no confirmed one outranks. */
  ghost predicate WellAsked(j: Judge, candidates: seq<Candidate>, asked: seq<Candidate>) {
    && |asked| <= MAX_VERIFICATIONS
    && forall c | c in asked ::
         && c in candidates && j.admissible(c) && j.needsProof(c)
         && forall d | Confirmed(j, candidates, d) :: j.rank(d) <= j.rank(c)
  }

  /** Everything promised about a finished search. */
  ghost predicate Justified(j: Judge, candidates: seq<Candidate>, canceled: nat -> bool, s: Search) {
    && WellAsked(j, candidates, s.asked)
    && match s.outcome
       case Selected(c, score) => Trusted(j, candidates, s.asked, c, score) && Dominates(j, candidates, s.asked, score)
       case NoSong => NothingFound(j, candidates, s.asked) && LastUnusable(j, s.asked) == None
       case LastError(e) => NothingFound(j, candidates, s.asked) && LastUnusable(j, s.asked) == Some(e)
       case Unavailable => LastAnswer(j, s.asked, Outage)
       case Canceled => LastAnswer(j, s.asked, Interrupted) || exists r: nat | r < 2 * |candidates| :: canceled(r)
  }

  /** The loop's bookkeeping: what may still be selected, and why anything else may not. */
  ghost predicate Consistent(j: Judge, candidates: seq<Candidate>, rs: seq<Ranked>, asked: seq<Candidate>) {
    && WellAsked(j, candidates, asked)
    && (forall r | r in rs ::
          if r.verify then r.candidate in candidates && j.admissible(r.candidate) && r == Summary(j, r.candidate)
          else Trusted(j, candidates, asked, r.candidate, r.score))
    && (forall c | Confirmed(j, candidates, c) :: Summary(j, c) in rs)
    && (forall c, t | Taken(j, asked, c, t) :: Ranked(c, t, false) in rs)
    && (|asked| < MAX_VERIFICATIONS ==>
          forall c | c in candidates && j.admissible(c) && j.needsProof(c) && c !in asked :: Summary(j, c) in rs)
  }

  lemma {:induction false} RankedContents(j: Judge, candidates: seq<Candidate>)
    ensures forall r :: r in RankAll(j, candidates) <==>
      (r.candidate in candidates && j.admissible(r.candidate) && r == Summary(j, r.candidate))
    ensures |RankAll(j, candidates)| <= |candidates|
  {
    if candidates != [] {
      RankedContents(j, candidates[..|candidates| - 1]);
      var last := candidates[|candidates| - 1];
      assert forall c :: c in candidates <==> c in candidates[..|candidates| - 1] || c == last;
    }
  }

  lemma EmptyFindsNothing(j: Judge, candidates: seq<Candidate>, asked: seq<Candidate>)
    requires Consistent(j, candidates, [], asked)
    ensures NothingFound(j, candidates, asked)
  {
    assert forall c :: Summary(j, c) !in [];
    assert forall c, t :: Taken(j, asked, c, t) ==> Ranked(c, t, false) in [];
    assert forall c | c in candidates && j.admissible(c) :: j.needsProof(c) || Confirmed(j, candidates, c);
  }

  lemma WithoutContents(rs: seq<Ranked>, i: nat)
    requires i < |rs|
    ensures forall r | r in Without(rs, i) :: r in rs
    ensures forall r | r in rs && r != rs[i] :: r in Without(rs, i)
  {
    forall r | r in rs && r != rs[i]
      ensures r in Without(rs, i)
    {
      var k :| 0 <= k < |rs| && rs[k] == r;
      assert Without(rs, i)[if k < i then k else k - 1] == r;
    }
  }

  lemma SelectionDominates(j: Judge, candidates: seq<Candidate>, rs: seq<Ranked>, asked: seq<Candidate>, best: nat)
    requires Consistent(j, candidates, rs, asked) && IsBest(rs, best)
    ensures Dominates(j, candidates, asked, rs[best].score)
  {
    assert forall c | Confirmed(j, candidates, c) :: Summary(j, c) in rs && Summary(j, c).score == j.rank(c);
    assert forall c :: Summary(j, c) in rs ==> j.rank(c) <= rs[best].score;
    assert forall c, t | Taken(j, asked, c, t) :: Ranked(c, t, false) in rs && Ranked(c, t, false).score == t;
  }

  /** Dropping an unverified candidate that the spent budget excludes. */
  lemma DropConsistent(j: Judge, candidates: seq<Candidate>, rs: seq<Ranked>, asked: seq<Candidate>, i: nat)
    requires Consistent(j, candidates, rs, asked) && i < |rs| && rs[i].verify && |asked| >= MAX_VERIFICATIONS
    ensures Consistent(j, candidates, Without(rs, i), asked)
  {
    WithoutContents(rs, i);
  }

  /** Dropping the best candidate, just asked about, whose answer was not accepted. */
  lemma RefuseConsistent(j: Judge, candidates: seq<Candidate>, rs: seq<Ranked>, asked: seq<Candidate>, i: nat)
    requires Consistent(j, candidates, rs, asked) && IsBest(rs, i) && rs[i].verify && |asked| < MAX_VERIFICATIONS
    requires var answer := j.verify(rs[i].candidate); answer.Full? ==> j.accept(answer.candidate) == None
    ensures Consistent(j, candidates, Without(rs, i), asked + [rs[i].candidate])
  {
    var after := asked + [rs[i].candidate];
    assert rs[i] in rs && rs[i].candidate in after;
    assert forall c, t :: Taken(j, after, c, t) <==> Taken(j, asked, c, t);
  }

  /** Replacing a summary by the full metadata just fetched and accepted. */
  lemma ReplaceConsistent(j: Judge, candidates: seq<Candidate>, rs: seq<Ranked>, asked: seq<Candidate>,
        i: nat, full: Ranked)
    requires Consistent(j, candidates, rs, asked) && IsBest(rs, i) && rs[i].verify && |asked| < MAX_VERIFICATIONS
    requires !full.verify && j.verify(rs[i].candidate) == Full(full.candidate)
    requires j.accept(full.candidate) == Some(full.score)
    ensures Consistent(j, candidates, rs[i := full], asked + [rs[i].candidate])
  {
    var after := asked + [rs[i].candidate];
    assert rs[i] in rs && rs[i].candidate in after;
    ReplacedContents(rs, i, full);
    assert forall c, t :: Taken(j, after, c, t) <==> Taken(j, asked, c, t) || Ranked(c, t, false) == full;
  }

  lemma ReplacedContents(rs: seq<Ranked>, i: nat, full: Ranked)
    requires i < |rs|
    ensures forall r | r in rs[i := full] :: r in rs || r == full
    ensures full in rs[i := full] && forall r | r in rs && r != rs[i] :: r in rs[i := full]
  {
    assert rs[i := full][i] == full;
    forall r | r in rs && r != rs[i]
      ensures r in rs[i := full]
    {
      var k :| 0 <= k < |rs| && rs[k] == r;
      assert rs[i := full][k] == r;
    }
  }

  lemma {:induction false} CountWithout(rs: seq<Ranked>, i: nat)
    requires i < |rs|
    ensures Unverified(Without(rs, i)) <= Unverified(rs)
  {
    var last := |rs| - 1;
    var init := rs[..last];
    if i == last {
      assert Without(rs, i) == init;
    } else {
      CountWithout(init, i);
      assert Without(rs, i)[..|rs| - 2] == Without(init, i);
    }
  }

  lemma {:induction false} CountUpdate(rs: seq<Ranked>, i: nat, r: Ranked)
    requires i < |rs| && rs[i].verify && !r.verify
    ensures Unverified(rs[i := r]) + 1 == Unverified(rs)
  {
    var last := |rs| - 1;
    if i == last {
      assert rs[i := r][..last] == rs[..last];
    } else {
      CountUpdate(rs[..last], i, r);
      assert rs[i := r][..last] == rs[..last][i := r];
    }
  }
}
