/** Fuzzy token matching of search results: the one-row edit-distance loop. */
module EditDistance {
  import opened Prelude

  /** A token is its sequence of code points. */
  type Token = string

  // ---------------------------------------------------------------------------
  // Levenshtein distance: the cheapest script of single-character edits
  // ---------------------------------------------------------------------------

  datatype Edit = Keep | Replace | Insert | Delete

  function Init(s: Token): Token
    requires s != []
  {
    s[..|s| - 1]
  }

  function Last(s: Token): char
    requires s != []
  {
    s[|s| - 1]
  }

  /** The script, listed from the end of both tokens backwards, turns a into b. */
  ghost predicate Turns(script: seq<Edit>, a: Token, b: Token)
    decreases |script|
  {
    if script == [] then a == [] && b == []
    else
      match script[0]
      case Keep => a != [] && b != [] && Last(a) == Last(b) && Turns(script[1..], Init(a), Init(b))
      case Replace => a != [] && b != [] && Turns(script[1..], Init(a), Init(b))
      case Insert => b != [] && Turns(script[1..], a, Init(b))
      case Delete => a != [] && Turns(script[1..], Init(a), b)
  }

  ghost function ScriptCost(script: seq<Edit>): nat {
    if script == [] then 0 else (if script[0].Keep? then 0 else 1) + ScriptCost(script[1..])
  }

  ghost predicate NoneCheaper(a: Token, b: Token, d: int) {
    forall script | Turns(script, a, b) :: d <= ScriptCost(script)
  }

  ghost predicate Attained(a: Token, b: Token, d: int) {
    exists script :: Turns(script, a, b) && ScriptCost(script) == d
  }

  /** d is the Levenshtein distance of a and b. */
  ghost predicate IsDistance(a: Token, b: Token, d: int) {
    Attained(a, b, d) && NoneCheaper(a, b, d)
  }

  lemma Extend(edit: Edit, rest: seq<Edit>, a: Token, b: Token)
    requires match edit
      case Keep => a != [] && b != [] && Last(a) == Last(b) && Turns(rest, Init(a), Init(b))
      case Replace => a != [] && b != [] && Turns(rest, Init(a), Init(b))
      case Insert => b != [] && Turns(rest, a, Init(b))
      case Delete => a != [] && Turns(rest, Init(a), b)
    ensures Turns([edit] + rest, a, b)
    ensures ScriptCost([edit] + rest) == ScriptCost(rest) + if edit.Keep? then 0 else 1
  {
    assert ([edit] + rest)[1..] == rest;
  }

  lemma {:induction false} InsertAll(b: Token)
    ensures IsDistance([], b, |b|)
  {
    LengthGap([], b);
    if b == [] {
      assert Turns([], [], b) && ScriptCost([]) == 0;
    } else {
      InsertAll(Init(b));
      var rest :| Turns(rest, [], Init(b)) && ScriptCost(rest) == |b| - 1;
      Extend(Insert, rest, [], b);
    }
  }

  lemma {:induction false} DeleteAll(a: Token)
    ensures IsDistance(a, [], |a|)
  {
    InsertAll(a);
    DistanceSymmetric([], a, |a|);
  }

  function Cost(x: char, y: char): int {
    if x == y then 0 else 1
  }

  function Least(up: int, left: int, diagonal: int): int {
    Min(Min(up, left), diagonal)
  }

  /** The recurrence: the distance of two tokens from the distances of their prefixes. */
  lemma DistanceStep(a: Token, b: Token, up: int, left: int, diagonal: int)
    requires a != [] && b != []
    requires IsDistance(Init(a), b, up) && IsDistance(a, Init(b), left) && IsDistance(Init(a), Init(b), diagonal)
    ensures IsDistance(a, b, Least(up + 1, left + 1, diagonal + Cost(Last(a), Last(b))))
  {
    var cost := Cost(Last(a), Last(b));
    var d := Least(up + 1, left + 1, diagonal + cost);
    forall script: seq<Edit> | Turns(script, a, b)
      ensures d <= ScriptCost(script)
    {
      var rest := script[1..];
      assert ScriptCost(script) == ScriptCost(rest) + if script[0].Keep? then 0 else 1;
    }
    if d == up + 1 {
      var rest :| Turns(rest, Init(a), b) && ScriptCost(rest) == up;
      Extend(Delete, rest, a, b);
    } else if d == left + 1 {
      var rest :| Turns(rest, a, Init(b)) && ScriptCost(rest) == left;
      Extend(Insert, rest, a, b);
    } else {
      var rest :| Turns(rest, Init(a), Init(b)) && ScriptCost(rest) == diagonal;
      Extend(if cost == 0 then Keep else Replace, rest, a, b);
    }
  }

  /** The script for the opposite direction. */
  ghost function Mirror(script: seq<Edit>): seq<Edit> {
    if script == [] then []
    else [match script[0] case Insert => Delete case Delete => Insert case e => e] + Mirror(script[1..])
  }

  lemma {:induction false} MirrorTurns(script: seq<Edit>, a: Token, b: Token)
    requires Turns(script, a, b)
    ensures Turns(Mirror(script), b, a) && ScriptCost(Mirror(script)) == ScriptCost(script)
    decreases |script|
  {
    if script == [] {
    } else {
      var rest := script[1..];
      match script[0]
      case Insert =>
        MirrorTurns(rest, a, Init(b));
        Extend(Delete, Mirror(rest), b, a);
      case Delete =>
        MirrorTurns(rest, Init(a), b);
        Extend(Insert, Mirror(rest), b, a);
      case e =>
        MirrorTurns(rest, Init(a), Init(b));
        Extend(e, Mirror(rest), b, a);
    }
  }

  lemma DistanceSymmetric(a: Token, b: Token, d: int)
    requires IsDistance(a, b, d)
    ensures IsDistance(b, a, d)
  {
    var best :| Turns(best, a, b) && ScriptCost(best) == d;
    MirrorTurns(best, a, b);
    forall script: seq<Edit> | Turns(script, b, a)
      ensures d <= ScriptCost(script)
    {
      MirrorTurns(script, b, a);
    }
  }

  /** Every edit changes the length by at most one. */
  lemma {:induction false} ScriptLength(script: seq<Edit>, a: Token, b: Token)
    requires Turns(script, a, b)
    ensures |a| - |b| <= ScriptCost(script) && |b| - |a| <= ScriptCost(script)
    decreases |script|
  {
    if script == [] {
    } else {
      match script[0]
      case Insert => ScriptLength(script[1..], a, Init(b));
      case Delete => ScriptLength(script[1..], Init(a), b);
      case _ => ScriptLength(script[1..], Init(a), Init(b));
    }
  }

  lemma LengthGap(a: Token, b: Token)
    ensures NoneCheaper(a, b, |a| - |b|) && NoneCheaper(a, b, |b| - |a|)
  {
    forall script: seq<Edit> | Turns(script, a, b)
      ensures |a| - |b| <= ScriptCost(script) && |b| - |a| <= ScriptCost(script)
    {
      ScriptLength(script, a, b);
    }
  }

  // ---------------------------------------------------------------------------
  // Token weights
  // ---------------------------------------------------------------------------

  predicate HasPrefix(s: Token, prefix: Token) {
    prefix <= s
  }

  predicate OccursAt(s: Token, part: Token, k: nat)
    requires k <= |s|
  {
    part <= s[k..]
  }

  predicate Contains(s: Token, part: Token) {
    exists k | 0 <= k <= |s| :: OccursAt(s, part, k)
  }

  /** Neither token occurs inside the other, and both are long enough for fuzzy matching. */
  predicate FuzzyPair(query: Token, candidate: Token) {
    |query| >= 5 && |candidate| >= 5 && !Contains(candidate, query) && !Contains(query, candidate)
  }

  /** At most two single-character edits apart. */
  ghost predicate Near(a: Token, b: Token) {
    exists script :: Turns(script, a, b) && ScriptCost(script) <= 2
  }

  /** The weight of a candidate token for a query token, by meaning. */
  ghost function Weight(query: Token, candidate: Token): int {
    if query == candidate then 100
    else if |query| < 5 || |candidate| < 5 then 0
    else if HasPrefix(candidate, query) || HasPrefix(query, candidate) then 35
    else if Contains(candidate, query) || Contains(query, candidate) then 10
    else if Near(query, candidate) then 60
    else 0
  }

  /** Cells 0 to j of the table row below `above`, for the next code point x of the other token. */
  ghost function NextRow(above: seq<int>, x: char, b: Token, j: nat): (row: seq<int>)
    requires j <= |b| && |above| == |b| + 1
    ensures |row| == j + 1
  {
    if j == 0 then [above[0] + 1]
    else
      var row := NextRow(above, x, b, j - 1);
      row + [Least(above[j] + 1, row[j - 1] + 1, above[j - 1] + Cost(x, b[j - 1]))]
  }

  /** The whole table row for the token a. */
  ghost function Row(a: Token, b: Token): (row: seq<int>)
    ensures |row| == |b| + 1
  {
    if a == [] then seq(|b| + 1, k => k) else NextRow(Row(Init(a), b), Last(a), b, |b|)
  }

  /** Cells do not change as the row is extended to the right. */
  lemma {:induction false} NextRowCell(above: seq<int>, x: char, b: Token, j: nat, k: nat)
    requires k <= j <= |b| && |above| == |b| + 1
    ensures NextRow(above, x, b, j)[k] == NextRow(above, x, b, k)[k]
  {
    if k < j {
      NextRowCell(above, x, b, j - 1, k);
    }
  }

  /** The table's recurrence, cell by cell. */
  lemma RowCell(above: seq<int>, x: char, b: Token, row: seq<int>, k: nat)
    requires k <= |b| && |above| == |b| + 1 && row == NextRow(above, x, b, |b|)
    ensures k == 0 ==> row[0] == above[0] + 1
    ensures k > 0 ==> row[k] == Least(above[k] + 1, row[k - 1] + 1, above[k - 1] + Cost(x, b[k - 1]))
  {
    NextRowCell(above, x, b, |b|, k);
    if k > 0 {
      NextRowCell(above, x, b, |b|, k - 1);
    }
  }

  /** Every cell of the table is a Levenshtein distance. */
  lemma {:induction false} RowIsDistance(a: Token, b: Token, k: nat)
    requires k <= |b|
    ensures IsDistance(a, b[..k], Row(a, b)[k])
    ensures Row(a, b)[0] == |a|
    decreases |a|, k
  {
    if a == [] {
      InsertAll(b[..k]);
    } else {
      RowCell(Row(Init(a), b), Last(a), b, Row(a, b), 0);
      RowIsDistance(Init(a), b, k);
      if k == 0 {
        DeleteAll(a);
        assert b[..0] == [];
      } else {
        RowCell(Row(Init(a), b), Last(a), b, Row(a, b), k);
        RowIsDistance(a, b, k - 1);
        RowIsDistance(Init(a), b, k - 1);
        assert Init(b[..k]) == b[..k - 1];
        DistanceStep(a, b[..k], Row(Init(a), b)[k], Row(a, b)[k - 1], Row(Init(a), b)[k - 1]);
      }
    }
  }

  /** The inner loop: turns the row above into the next one, cell by cell from the left. */
  method Sweep(row: array<int>, a: Token, i: nat, b: Token)
    requires i < |a| && row.Length == |b| + 1 && row[..] == Row(a[..i], b)
    modifies row
    ensures row[..] == Row(a[..i + 1], b)
  {
    ghost var above, below := Row(a[..i], b), Row(a[..i + 1], b);
    assert Init(a[..i + 1]) == a[..i];
    RowCell(above, a[i], b, below, 0);
    RowIsDistance(a[..i], b, 0);
    var prev := row[0];
    row[0] := i + 1;
    for j := 0 to |b|
      invariant prev == above[j]
      invariant forall k :: 0 <= k <= j ==> row[k] == below[k]
      invariant forall k :: j < k <= |b| ==> row[k] == above[k]
    {
      RowCell(above, a[i], b, below, j + 1);
      var next := row[j + 1];
      var cost := if a[i] == b[j] then 0 else 1;
      row[j + 1] := Least(row[j + 1] + 1, row[j] + 1, prev + cost);
      prev := next;
    }
  }

  /** The last row of the table, kept in one array that is updated in place. */
  method LastRow(a: Token, b: Token) returns (distance: int)
    ensures IsDistance(a, b, distance)
  {
    var row := new int[|b| + 1];
    for j := 0 to |b| + 1
      invariant forall k :: 0 <= k < j ==> row[k] == k
    {
      row[j] := j;
    }
    for i := 0 to |a|
      invariant row[..] == Row(a[..i], b)
    {
      Sweep(row, a, i, b);
    }
    distance := row[|b|];
    RowIsDistance(a, b, |b|);
    assert a[..|a|] == a && b[..|b|] == b;
  }

  method TokenWeight(query: Token, candidate: Token) returns (weight: int)
    ensures weight == Weight(query, candidate)
  {
    if query == candidate {
      return 100;
    }
    if |query| < 5 || |candidate| < 5 {
      return 0;
    }
    if HasPrefix(candidate, query) || HasPrefix(query, candidate) {
      return 35;
    }
    if Contains(candidate, query) || Contains(query, candidate) {
      return 10;
    }
    LengthGap(query, candidate);
    if |query| - |candidate| > 2 || |candidate| - |query| > 2 {
      return 0;
    }
    var distance := LastRow(query, candidate);
    weight := if distance <= 2 then 60 else 0;
  }

  lemma PrefixIsContained(s: Token, prefix: Token)
    requires HasPrefix(s, prefix)
    ensures Contains(s, prefix)
  {
    assert OccursAt(s, prefix, 0);
  }

  /** Among fuzzy pairs the weight is 60 exactly when the distance is at most two. */
  lemma SixtyIffTwoEdits(query: Token, candidate: Token, d: int)
    requires FuzzyPair(query, candidate) && IsDistance(query, candidate, d)
    ensures Weight(query, candidate) == 60 <==> d <= 2
  {
    if HasPrefix(candidate, query) { PrefixIsContained(candidate, query); }
    if HasPrefix(query, candidate) { PrefixIsContained(query, candidate); }
  }

  /** One token is a proper beginning of the other. */
  predicate Begins(a: Token, b: Token) {
    a != b && (HasPrefix(a, b) || HasPrefix(b, a))
  }

  /** One token occurs inside the other, but not at its beginning. */
  predicate Inside(a: Token, b: Token) {
    !HasPrefix(a, b) && !HasPrefix(b, a) && (Contains(a, b) || Contains(b, a))
  }

  /**
   Each weight has its meaning: 100 for the same token, and for tokens of five characters or more 60 within two edits,
   35 for a beginning, 10 for a part; 0 for all others.
   */
  lemma WeightMeans(query: Token, candidate: Token)
    ensures var w := Weight(query, candidate);
      var long := |query| >= 5 && |candidate| >= 5;
      && (w == 100 <==> query == candidate)
      && (w == 60 <==> FuzzyPair(query, candidate) && Near(query, candidate))
      && (w == 35 <==> long && Begins(query, candidate))
      && (w == 10 <==> long && Inside(query, candidate))
      && (w == 100 || w == 60 || w == 35 || w == 10 || w == 0)
  {
    if HasPrefix(candidate, query) { PrefixIsContained(candidate, query); }
    if HasPrefix(query, candidate) { PrefixIsContained(query, candidate); }
  }

  /** So the same token outranks a typo, a typo outranks a beginning, and a beginning outranks a part. */
  lemma WeightRanks(query: Token, same: Token, typo: Token, beginning: Token, part: Token)
    requires same == query && FuzzyPair(query, typo) && Near(query, typo)
    requires |beginning| >= 5 && Begins(query, beginning) && |part| >= 5 && Inside(query, part)
    ensures Weight(query, same) > Weight(query, typo) > Weight(query, beginning) > Weight(query, part) > 0
  {
    WeightMeans(query, same);
    WeightMeans(query, typo);
    WeightMeans(query, beginning);
    WeightMeans(query, part);
  }

  lemma WeightSymmetric(query: Token, candidate: Token)
    ensures Weight(query, candidate) == Weight(candidate, query)
  {
    if Near(query, candidate) { NearSymmetric(query, candidate); }
    if Near(candidate, query) { NearSymmetric(candidate, query); }
  }

  lemma NearSymmetric(a: Token, b: Token)
    requires Near(a, b)
    ensures Near(b, a)
  {
    var script :| Turns(script, a, b) && ScriptCost(script) <= 2;
    MirrorTurns(script, a, b);
  }
}
