/**
 Layout of the queue as one message: at most 40 components and 4000 UTF-16 units.

 A row arrives with its text already escaped; whether it has artwork is a flag.
 */
module QueueLayout {
  import opened Prelude

  const TEXT_BUDGET := 4000
  const COMPONENT_BUDGET := 40

  /** Position 0 is the current song. */
  datatype Row = Row(position: nat, text: string, art: bool)

  /** A section holds its text and a thumbnail: three components. */
  datatype Component = Section(text: string) | Text(text: string)

  /** The fixed texts, and whether one component is held back for a compact text with the rows that remain. */
  datatype Plan = Plan(heading: string, note: string, compactTail: bool) {
    predicate Short() {
      |heading| <= 50 && |note| <= 50
    }
  }

  function QueuePlan(compactTail: bool): (plan: Plan)
    ensures plan.Short() && plan.compactTail == compactTail
  {
    Plan("### Queue", "Nothing playing. The queue is empty.", compactTail)
  }

  datatype Document = Document(heading: string, body: seq<Component>, footer: string)

  function CharUnits(c: char): nat {
    if c as int > 0xffff then 2 else 1
  }

  function Units(s: string): nat {
    if s == "" then 0 else Units(s[..|s| - 1]) + CharUnits(s[|s| - 1])
  }

  method QueueUnits(s: string) returns (n: nat)
    ensures n == Units(s)
  {
    n := 0;
    for i := 0 to |s|
      invariant n == Units(s[..i])
    {
      assert s[..i + 1][..i] == s[..i];
      n := n + 1;
      if s[i] as int > 0xffff {
        n := n + 1;
      }
    }
    assert s[..|s|] == s;
  }

  lemma {:induction false} UnitsAppend(a: string, b: string)
    ensures Units(a + b) == Units(a) + Units(b)
  {
    if b == "" {
      assert a + b == a;
    } else {
      assert (a + b)[..|a + b| - 1] == a + b[..|b| - 1];
      UnitsAppend(a, b[..|b| - 1]);
    }
  }

  // ---------------------------------------------------------------------------
  // What a document costs
  // ---------------------------------------------------------------------------

  function BodyUnits(body: seq<Component>): nat {
    if body == [] then 0 else BodyUnits(body[..|body| - 1]) + Units(body[|body| - 1].text)
  }

  function BodyCount(body: seq<Component>): nat {
    if body == [] then 0 else BodyCount(body[..|body| - 1]) + if body[|body| - 1].Section? then 3 else 1
  }

  function DocumentUnits(d: Document): nat {
    Units(d.heading) + BodyUnits(d.body) + Units(d.footer)
  }

  /** The container, the heading and the footer count as well. */
  function DocumentCount(d: Document): nat {
    3 + BodyCount(d.body)
  }

  // ---------------------------------------------------------------------------
  // Where rows go
  // ---------------------------------------------------------------------------

  /** The range of positions a message shows. */
  datatype Shown = Shown(count: nat, first: nat, last: nat)

  /** Rows with their own component, then one text for all the rest, and the running counters. */
  datatype Placed = Placed(body: seq<Component>, compact: string, units: nat, components: nat,
    shown: Shown, missing: nat)

  function Nothing(plan: Plan): Placed {
    Placed([], "", Units(plan.heading), 3, Shown(0, 0, 0), 0)
  }

  /** There is still room for a section, and for the compact text where one is planned. */
  predicate Slack(p: Placed, plan: Plan) {
    p.components + 3 + (if plan.compactTail then 1 else 0) <= COMPONENT_BUDGET
  }

  /** The row gets a component of its own. */
  predicate Separate(p: Placed, row: Row, plan: Plan) {
    Slack(p, plan) && (row.art || p.compact == "")
  }

  function RowUnits(p: Placed, row: Row, plan: Plan): nat {
    Units(row.text) + if !Separate(p, row, plan) && p.compact != "" then 2 else 0
  }

  function RowCount(p: Placed, row: Row, plan: Plan): nat {
    if Separate(p, row, plan) then (if row.art then 3 else 1) else if p.compact == "" then 1 else 0
  }

  function Show(s: Shown, position: nat): Shown {
    if position == 0 then s else Shown(s.count + 1, if s.count == 0 then position else s.first, position)
  }

  function Place(p: Placed, row: Row, plan: Plan): Placed {
    var separate := Separate(p, row, plan);
    Placed(
      if separate then p.body + [if row.art then Section(row.text) else Text(row.text)] else p.body,
      if separate then p.compact else if p.compact == "" then row.text else p.compact + "\n\n" + row.text,
      p.units + RowUnits(p, row, plan),
      p.components + RowCount(p, row, plan),
      Show(p.shown, row.position),
      if row.art then p.missing else p.missing + 1)
  }

  function PlaceAll(rows: seq<Row>, plan: Plan): Placed {
    if rows == [] then Nothing(plan) else Place(PlaceAll(rows[..|rows| - 1], plan), rows[|rows| - 1], plan)
  }

  function Body(p: Placed): seq<Component> {
    if p.compact == "" then p.body else p.body + [Text(p.compact)]
  }

  /** The footer of a message from the range it shows. */
  type Footing = Shown -> string

  /** The message that shows exactly these rows. */
  function Render(rows: seq<Row>, footing: Footing, plan: Plan): Document {
    var p := PlaceAll(rows, plan);
    Document(plan.heading, Body(p), footing(p.shown))
  }

  predicate Accepts(p: Placed, row: Row, footing: Footing, plan: Plan) {
    && (plan.compactTail || !row.art || Slack(p, plan))
    && p.units + RowUnits(p, row, plan) + Units(footing(Show(p.shown, row.position))) <= TEXT_BUDGET
    && p.components + RowCount(p, row, plan) <= COMPONENT_BUDGET
  }

  // ---------------------------------------------------------------------------
  // The footer
  // ---------------------------------------------------------------------------

  function Digit(n: nat): char
    requires n < 10
  {
    "0123456789"[n]
  }

  function Decimal(n: nat): string {
    if n < 10 then [Digit(n)] else Decimal(n / 10) + [Digit(n % 10)]
  }

  datatype Frame = Frame(total: nat, start: nat, omitted: bool)

  function Footer(f: Frame, s: Shown): string {
    "-# " + (if s.last > 0 then Decimal(s.first) + "–" + Decimal(s.last) else "Now playing")
    + " · " + Decimal(s.count) + " of " + Decimal(f.total) + " songs up next · " + Decimal(s.count)
    + " positions displayed · " + Decimal(if f.total >= s.count then f.total - s.count else 0) + " remaining"
    + (if f.start + s.count <= f.total then " · Next position: " + Decimal(f.start + s.count) else "")
    + (if f.omitted then " · Current song omitted: exceeds message budget." else "")
  }

  // ---------------------------------------------------------------------------
  // Building the message
  // ---------------------------------------------------------------------------

  class Layout {
    const plan: Plan
    var footing: Footing
    var units: nat
    var components: nat
    var body: seq<Component>
    var compact: string
    var shown: Shown
    var missing: nat

    function Model(): Placed
      reads this
    {
      Placed(body, compact, units, components, shown, missing)
    }

    constructor (footing: Footing, plan: Plan)
      ensures Model() == Nothing(plan) && this.footing == footing && this.plan == plan
    {
      this.plan, this.footing := plan, footing;
      units, components, body, compact, shown, missing := Units(plan.heading), 3, [], "", Shown(0, 0, 0), 0;
    }

    /** Budgets the row together with its complete footer, then adds it or leaves the message alone. */
    method Add(row: Row) returns (added: bool)
      requires row.text != ""
      modifies this
      ensures footing == old(footing)
      ensures added == Accepts(old(Model()), row, footing, plan)
      ensures Model() == if added then Place(old(Model()), row, plan) else old(Model())
    {
      ghost var was := Model();
      var reserve := if plan.compactTail then 1 else 0;
      var illustrated := row.art && components + 3 + reserve <= COMPONENT_BUDGET;
      var preview := illustrated || (!row.art && compact == "" && components + 3 + reserve <= COMPONENT_BUDGET);
      var cost := 0;
      if illustrated {
        cost := 3;
      } else if preview || compact == "" {
        cost := 1;
      }
      if !plan.compactTail && row.art && !illustrated {
        return false;
      }
      var size := QueueUnits(row.text);
      if !preview && compact != "" {
        size := size + 2;
      }
      var next := shown;
      if row.position > 0 {
        if next.count == 0 {
          next := next.(first := row.position);
        }
        next := next.(count := next.count + 1, last := row.position);
      }
      var footerUnits := QueueUnits(footing(next));
      assert preview == Separate(was, row, plan);
      assert size == RowUnits(was, row, plan) && cost == RowCount(was, row, plan);
      assert next == Show(was.shown, row.position);
      if units + size + footerUnits > TEXT_BUDGET || components + cost > COMPONENT_BUDGET {
        return false;
      }
      units := units + size;
      components := components + cost;
      if illustrated {
        body := body + [Section(row.text)];
      } else if preview {
        body := body + [Text(row.text)];
      } else {
        compact := if compact != "" then compact + "\n\n" + row.text else row.text;
      }
      if !row.art {
        missing := missing + 1;
      }
      shown := next;
      return true;
    }
  }

  // ---------------------------------------------------------------------------
  // The counters are exact
  // ---------------------------------------------------------------------------

  /** The counters are those of the rendered message, and the compact text starts only when no slack is left. */
  ghost predicate Exact(p: Placed, plan: Plan) {
    && p.units == Units(plan.heading) + BodyUnits(Body(p))
    && p.components == 3 + BodyCount(Body(p))
    && (p.compact != "" ==> !Slack(p, plan))
    && (plan.compactTail ==> p.components <= COMPONENT_BUDGET && (p.compact == "" ==> p.components < COMPONENT_BUDGET))
  }

  lemma BodyAppend(body: seq<Component>, c: Component)
    ensures BodyUnits(body + [c]) == BodyUnits(body) + Units(c.text)
    ensures BodyCount(body + [c]) == BodyCount(body) + if c.Section? then 3 else 1
  {
    assert (body + [c])[..|body|] == body;
  }

  lemma PlaceExact(p: Placed, row: Row, plan: Plan)
    requires Exact(p, plan) && row.text != ""
    ensures Exact(Place(p, row, plan), plan)
  {
    var q := Place(p, row, plan);
    if Separate(p, row, plan) {
      BodyAppend(p.body, if row.art then Section(row.text) else Text(row.text));
    } else if p.compact == "" {
      BodyAppend(p.body, Text(row.text));
    } else {
      BodyAppend(p.body, Text(p.compact));
      BodyAppend(p.body, Text(q.compact));
      UnitsAppend(p.compact + "\n\n", row.text);
      UnitsAppend(p.compact, "\n\n");
      assert "\n\n"[..1] == "\n" && "\n"[..0] == "";
      assert Units("\n\n") == 2;
    }
  }

  lemma {:induction false} CountersExact(rows: seq<Row>, plan: Plan)
    requires forall r | r in rows :: r.text != ""
    ensures Exact(PlaceAll(rows, plan), plan)
  {
    if rows != [] {
      var last := rows[|rows| - 1];
      assert last in rows;
      CountersExact(rows[..|rows| - 1], plan);
      PlaceExact(PlaceAll(rows[..|rows| - 1], plan), last, plan);
    }
  }

  lemma Measured(rows: seq<Row>, footing: Footing, plan: Plan)
    requires forall r | r in rows :: r.text != ""
    ensures var p := PlaceAll(rows, plan);
      && DocumentUnits(Render(rows, footing, plan)) == p.units + Units(footing(p.shown))
      && DocumentCount(Render(rows, footing, plan)) == p.components
  {
    CountersExact(rows, plan);
  }

  /** With a compact tail a row is accepted exactly when the message with it fits the text budget. */
  lemma AcceptsIffFits(rows: seq<Row>, row: Row, footing: Footing, plan: Plan)
    requires plan.compactTail && row.text != "" && forall r | r in rows :: r.text != ""
    ensures Accepts(PlaceAll(rows, plan), row, footing, plan)
       <==> DocumentUnits(Render(rows + [row], footing, plan)) <= TEXT_BUDGET
  {
    var p := PlaceAll(rows, plan);
    assert (rows + [row])[..|rows|] == rows;
    CountersExact(rows, plan);
    PlaceExact(p, row, plan);
  }

  ghost predicate InOrder(p: Placed, rows: seq<Row>) {
    && |p.body| <= |rows|
    && (forall k | 0 <= k < |p.body| :: p.body[k].text == rows[k].text && (p.body[k].Section? <==> rows[k].art))
    && p.compact == Joined(rows[|p.body|..])
  }

  /** Rows appear in the order given: the components of their own first, then the compact text. */
  lemma {:induction false} RowsInOrder(rows: seq<Row>, plan: Plan)
    requires forall r | r in rows :: r.text != ""
    ensures InOrder(PlaceAll(rows, plan), rows)
  {
    if rows != [] {
      var init, last := rows[..|rows| - 1], rows[|rows| - 1];
      assert last in rows;
      RowsInOrder(init, plan);
      CountersExact(init, plan);
      InOrderStep(PlaceAll(init, plan), init, last, plan);
      assert init + [last] == rows;
    }
  }

  lemma InOrderStep(p: Placed, rows: seq<Row>, row: Row, plan: Plan)
    requires InOrder(p, rows) && (p.compact != "" ==> !Slack(p, plan)) && row.text != ""
    requires forall r | r in rows :: r.text != ""
    ensures InOrder(Place(p, row, plan), rows + [row])
  {
    var q, more := Place(p, row, plan), rows + [row];
    if Separate(p, row, plan) {
      JoinedEmpty(rows[|p.body|..]);
      assert more[|q.body|..] == [];
    } else {
      assert more[|q.body|..] == rows[|p.body|..] + [row];
      assert (rows[|p.body|..] + [row])[..|rows| - |p.body|] == rows[|p.body|..];
    }
  }

  /** Rows have text, so an empty compact text holds none. */
  lemma JoinedEmpty(rows: seq<Row>)
    requires forall r | r in rows :: r.text != ""
    ensures rows != [] ==> Joined(rows) != ""
  {
    if rows != [] {
      assert rows[|rows| - 1] in rows;
    }
  }

  ghost function Joined(rows: seq<Row>): string {
    if rows == [] then ""
    else
      var before := Joined(rows[..|rows| - 1]);
      if before == "" then rows[|rows| - 1].text else before + "\n\n" + rows[|rows| - 1].text
  }

  /** How many of the rows have no artwork. */
  function Artless(rows: seq<Row>): nat {
    if rows == [] then 0 else Artless(rows[..|rows| - 1]) + if rows[|rows| - 1].art then 0 else 1
  }

  lemma {:induction false} MissingCounts(rows: seq<Row>, plan: Plan)
    ensures PlaceAll(rows, plan).missing == Artless(rows)
  {
    if rows != [] {
      MissingCounts(rows[..|rows| - 1], plan);
    }
  }

  // ---------------------------------------------------------------------------
  // The whole view
  // ---------------------------------------------------------------------------

  datatype Request = Request(limit: Option<int>, from: Option<int>, to: Option<int>)

  datatype Range = Positions(start: nat, end: nat) | BadArgument | OutOfRange | Reversed

  /** The positions asked for, out of n. */
  function Select(r: Request, n: nat): (range: Range)
    ensures range.Positions? ==> 1 <= range.start <= n + 1 && range.end <= n
  {
    if (r.limit.Some? && r.limit.value < 1) || (r.from.Some? && r.from.value < 1) || (r.to.Some? && r.to.value < 1)
    then BadArgument
    else
      var start := if r.from.Some? then r.from.value else 1;
      var end := if r.to.Some? then r.to.value else n;
      if (r.from.Some? && start > n) || (r.to.Some? && end > n) then OutOfRange
      else if r.to.Some? && end < start then Reversed
      else if r.limit.Some? && start <= end && r.limit.value < end - start + 1
        then Positions(start, start + r.limit.value - 1)
      else Positions(start, end)
  }

  /** The position is among those asked for: from the first, up to the last, and no more than the limit. */
  predicate AskedFor(r: Request, n: nat, position: nat) {
    && 1 <= position <= n
    && (r.from.Some? ==> r.from.value <= position)
    && (r.to.Some? ==> position <= r.to.value)
    && (r.limit.Some? ==> position < (if r.from.Some? then r.from.value else 1) + r.limit.value)
  }

  /** A request is answered by exactly the positions it asks for, or refused for the first thing that is wrong. */
  lemma SelectsAskedFor(r: Request, n: nat)
    ensures var low := (r.limit.Some? && r.limit.value < 1) || (r.from.Some? && r.from.value < 1)
                       || (r.to.Some? && r.to.value < 1);
      var beyond := (r.from.Some? && r.from.value > n) || (r.to.Some? && r.to.value > n);
      match Select(r, n)
      case BadArgument => low
      case OutOfRange => !low && beyond
      case Reversed => !low && !beyond && r.to.Some? && r.to.value < (if r.from.Some? then r.from.value else 1)
      case Positions(start, end) =>
        && !low && !beyond && start == (if r.from.Some? then r.from.value else 1)
        && forall position: nat :: start <= position <= end <==> AskedFor(r, n, position)
  {
  }

  datatype View = View(document: Document, shown: nat, total: nat, missing: nat, components: nat)

  function Wanted(rows: seq<Row>, start: nat, count: nat): seq<Row>
    requires start >= 1 && start - 1 + count <= |rows|
  {
    rows[start - 1..start - 1 + count]
  }

  /** Queue rows are numbered from one and have text. */
  ghost predicate Numbered(rows: seq<Row>) {
    forall i | 0 <= i < |rows| :: rows[i].position == i + 1 && rows[i].text != ""
  }

  /** The rows kept: the current song unless it was omitted, then the positions shown. */
  ghost function Kept(current: Option<Row>, omitted: bool, queue: seq<Row>, start: nat, shown: nat): seq<Row>
    requires start >= 1 && start - 1 + shown <= |queue|
  {
    (if current.Some? && !omitted then [current.value] else []) + Wanted(queue, start, shown)
  }

  const MAX_INT := 0x7fff_ffff_ffff_ffff

  lemma {:induction false} ShownCounts(head: seq<Row>, queue: seq<Row>, start: nat, count: nat, plan: Plan)
    requires Numbered(queue) && start >= 1 && start - 1 + count <= |queue|
    requires head == [] || (|head| == 1 && head[0].position == 0)
    ensures PlaceAll(head + Wanted(queue, start, count), plan).shown ==
      if count == 0 then Shown(0, 0, 0) else Shown(count, start, start + count - 1)
  {
    var rows := head + Wanted(queue, start, count);
    if count == 0 {
      assert rows == head;
      if head != [] {
        assert head[..0] == [];
      }
    } else {
      assert rows[..|rows| - 1] == head + Wanted(queue, start, count - 1);
      ShownCounts(head, queue, start, count - 1, plan);
    }
  }

  lemma {:induction false} UnitsAtMostTwice(s: string)
    ensures Units(s) <= 2 * |s|
  {
    if s != "" {
      UnitsAtMostTwice(s[..|s| - 1]);
    }
  }

  function Pow10(k: nat): nat {
    if k == 0 then 1 else 10 * Pow10(k - 1)
  }

  lemma {:induction false} DecimalLength(n: nat, k: nat)
    requires n < Pow10(k) && k > 0
    ensures |Decimal(n)| <= k
  {
    if n >= 10 {
      DecimalLength(n / 10, k - 1);
    }
  }

  lemma DecimalOfInt(n: nat)
    requires n <= MAX_INT
    ensures |Decimal(n)| <= 19
  {
    assert Pow10(4) == 10000;
    assert Pow10(8) == 100000000;
    assert Pow10(12) == 1000000000000;
    assert Pow10(16) == 10000000000000000;
    assert Pow10(19) == 10000000000000000000;
    DecimalLength(n, 19);
  }

  /** Footers with and without the note that the current song was left out. */
  datatype Footings = Footings(plain: Footing, omitting: Footing)

  function Choose(f: Footings, omitted: bool): Footing {
    if omitted then f.omitting else f.plain
  }

  function FootingsOf(total: nat, start: nat): Footings {
    Footings((s: Shown) => Footer(Frame(total, start, false), s), (s: Shown) => Footer(Frame(total, start, true), s))
  }

  /** A message without rows fits, whichever footer it has. */
  ghost predicate EmptyFits(footings: Footings, plan: Plan) {
    forall o: bool :: Units(plan.heading) + Units(Choose(footings, o)(Shown(0, 0, 0))) + Units(plan.note) <= TEXT_BUDGET
  }

  lemma FootersFit(total: nat, start: nat, plan: Plan)
    requires total < MAX_INT && start <= MAX_INT && plan.Short()
    ensures EmptyFits(FootingsOf(total, start), plan)
  {
    DecimalOfInt(total);
    DecimalOfInt(start);
    assert |Decimal(0)| == 1;
    forall o: bool
      ensures Units(Choose(FootingsOf(total, start), o)(Shown(0, 0, 0))) <= 600
    {
      var footer := Footer(Frame(total, start, o), Shown(0, 0, 0));
      assert |footer| <= 300;
      UnitsAtMostTwice(footer);
    }
    UnitsAtMostTwice(plan.heading);
    UnitsAtMostTwice(plan.note);
  }

  lemma KeptStep(current: Option<Row>, omitted: bool, queue: seq<Row>, start: nat, count: nat)
    requires start >= 1 && start + count <= |queue|
    ensures var kept := Kept(current, omitted, queue, start, count);
      var more := Kept(current, omitted, queue, start, count + 1);
      more == kept + [queue[start + count - 1]] && more[..|more| - 1] == kept
  {
    var kept := Kept(current, omitted, queue, start, count);
    var more := Kept(current, omitted, queue, start, count + 1);
    assert more == kept + [queue[start + count - 1]];
  }

  lemma KeptShown(current: Option<Row>, omitted: bool, queue: seq<Row>, start: nat, count: nat, plan: Plan)
    requires Numbered(queue) && start >= 1 && start - 1 + count <= |queue|
    requires current.Some? ==> current.value.position == 0
    ensures PlaceAll(Kept(current, omitted, queue, start, count), plan).shown.count == count
  {
    ShownCounts(if current.Some? && !omitted then [current.value] else [], queue, start, count, plan);
  }

  /** The layout holds exactly the rows kept so far, within both budgets. */
  ghost predicate Filled(p: Placed, current: Option<Row>, omitted: bool, queue: seq<Row>, start: nat, count: nat,
                         footings: Footings, plan: Plan)
  {
    && start >= 1 && start - 1 + count <= |queue|
    && p == PlaceAll(Kept(current, omitted, queue, start, count), plan)
    && p.components <= COMPONENT_BUDGET
    && p.units + Units(Choose(footings, omitted)(p.shown)) <= TEXT_BUDGET
    && (omitted ==> current.Some? && !Accepts(Nothing(plan), current.value, footings.plain, plan))
  }

  lemma FilledStart(current: Option<Row>, queue: seq<Row>, start: nat, footings: Footings, plan: Plan)
    requires 1 <= start <= |queue| + 1
    requires EmptyFits(footings, plan)
    ensures var omitted := current.Some? && !Accepts(Nothing(plan), current.value, footings.plain, plan);
      var p := if current.Some? && !omitted then Place(Nothing(plan), current.value, plan) else Nothing(plan);
      Filled(p, current, omitted, queue, start, 0, footings, plan)
  {
    if current.Some? {
      assert [current.value][..0] == [];
      assert PlaceAll([current.value], plan) == Place(Nothing(plan), current.value, plan);
      assert [current.value] + [] == [current.value];
    }
  }

  lemma FilledStep(p: Placed, current: Option<Row>, omitted: bool, queue: seq<Row>, start: nat, count: nat,
                   footings: Footings, plan: Plan)
    requires Filled(p, current, omitted, queue, start, count, footings, plan) && start + count <= |queue|
    requires Accepts(p, queue[start + count - 1], Choose(footings, omitted), plan)
    ensures Filled(Place(p, queue[start + count - 1], plan), current, omitted, queue, start, count + 1, footings, plan)
  {
    KeptStep(current, omitted, queue, start, count);
  }

  /** The current song comes first; without it the footer says that it was left out. */
  method AddCurrent(current: Option<Row>, queue: seq<Row>, start: nat, footings: Footings, plan: Plan)
    returns (layout: Layout, omitted: bool)
    requires 1 <= start <= |queue| + 1 && EmptyFits(footings, plan)
    requires current.Some? ==> current.value.text != ""
    ensures fresh(layout) && layout.plan == plan && layout.footing == Choose(footings, omitted)
    ensures Filled(layout.Model(), current, omitted, queue, start, 0, footings, plan)
  {
    layout := new Layout(footings.plain, plan);
    omitted := false;
    if current.Some? {
      var added := layout.Add(current.value);
      if !added {
        omitted := true;
        layout.footing := footings.omitting;
      }
    }
    FilledStart(current, queue, start, footings, plan);
  }

  /** The filling loop over the positions start to end. */
  method Fill(queue: seq<Row>, current: Option<Row>, start: nat, end: nat, footings: Footings, plan: Plan)
    returns (layout: Layout, omitted: bool, count: nat)
    requires Numbered(queue) && 1 <= start <= |queue| + 1 && end <= |queue|
    requires current.Some? ==> current.value.position == 0 && current.value.text != ""
    requires EmptyFits(footings, plan)
    ensures fresh(layout) && layout.footing == Choose(footings, omitted)
    ensures start + count <= Max(start, end + 1)
    ensures Filled(layout.Model(), current, omitted, queue, start, count, footings, plan)
    ensures start + count <= end ==> !Accepts(layout.Model(), queue[start + count - 1], layout.footing, plan)
  {
    layout, omitted := AddCurrent(current, queue, start, footings, plan);
    count := 0;
    while start + count <= end
      invariant start + count <= Max(start, end + 1)
      invariant layout.plan == plan && layout.footing == Choose(footings, omitted)
      invariant Filled(layout.Model(), current, omitted, queue, start, count, footings, plan)
    {
      ghost var before := layout.Model();
      var added := layout.Add(queue[start + count - 1]);
      if !added {
        break;
      }
      FilledStep(before, current, omitted, queue, start, count, footings, plan);
      count := count + 1;
    }
  }

  lemma NextTooLong(current: Option<Row>, omitted: bool, queue: seq<Row>, start: nat,
        count: nat, footing: Footing, plan: Plan)
    requires Numbered(queue) && start >= 1 && start + count <= |queue| && plan.compactTail
    requires current.Some? ==> current.value.text != ""
    requires var p := PlaceAll(Kept(current, omitted, queue, start, count), plan);
      !Accepts(p, queue[start + count - 1], footing, plan)
    ensures DocumentUnits(Render(Kept(current, omitted, queue, start, count + 1), footing, plan)) > TEXT_BUDGET
  {
    KeptStep(current, omitted, queue, start, count);
    AcceptsIffFits(Kept(current, omitted, queue, start, count), queue[start + count - 1], footing, plan);
  }

  lemma FilledFits(p: Placed, current: Option<Row>, omitted: bool, queue: seq<Row>, start: nat, count: nat,
                   footings: Footings, plan: Plan)
    requires Filled(p, current, omitted, queue, start, count, footings, plan) && Numbered(queue)
    requires current.Some? ==> current.value.position == 0 && current.value.text != ""
    ensures var d := Render(Kept(current, omitted, queue, start, count), Choose(footings, omitted), plan);
      && d == Document(plan.heading, Body(p), Choose(footings, omitted)(p.shown))
      && DocumentUnits(d) <= TEXT_BUDGET && p.components == DocumentCount(d) <= COMPONENT_BUDGET
    ensures omitted && plan.compactTail ==>
      current.Some? && DocumentUnits(Render([current.value], footings.plain, plan)) > TEXT_BUDGET
    ensures queue == [] && current.None? ==> p == Nothing(plan)
  {
    Measured(Kept(current, omitted, queue, start, count), Choose(footings, omitted), plan);
    if omitted && plan.compactTail {
      AcceptsIffFits([], current.value, footings.plain, plan);
      assert [] + [current.value] == [current.value];
    }
  }

  /** The view for the positions start to end, whatever the footers say. */
  method Assemble(queue: seq<Row>, current: Option<Row>, start: nat, end: nat, footings: Footings, plan: Plan)
    returns (view: View, ghost omitted: bool)
    requires Numbered(queue) && 1 <= start <= |queue| + 1 && end <= |queue|
    requires current.Some? ==> current.value.position == 0 && current.value.text != ""
    requires EmptyFits(footings, plan)
    ensures view.total == |queue| && start + view.shown <= Max(start, end + 1)
    ensures view.missing == Artless(Kept(current, omitted, queue, start, view.shown))
    ensures view.components == DocumentCount(view.document) <= COMPONENT_BUDGET
    ensures DocumentUnits(view.document) <= TEXT_BUDGET
    ensures queue != [] || current.Some? ==>
      view.document == Render(Kept(current, omitted, queue, start, view.shown), Choose(footings, omitted), plan)
    ensures plan.compactTail && start + view.shown <= end ==>
      var more := Kept(current, omitted, queue, start, view.shown + 1);
      DocumentUnits(Render(more, Choose(footings, omitted), plan)) > TEXT_BUDGET
    ensures plan.compactTail && omitted ==>
      current.Some? && DocumentUnits(Render([current.value], footings.plain, plan)) > TEXT_BUDGET
  {
    var layout, left, count := Fill(queue, current, start, end, footings, plan);
    omitted := left;
    KeptShown(current, omitted, queue, start, count, plan);
    MissingCounts(Kept(current, omitted, queue, start, count), plan);
    FilledFits(layout.Model(), current, omitted, queue, start, count, footings, plan);
    if plan.compactTail && start + count <= end {
      NextTooLong(current, omitted, queue, start, count, layout.footing, plan);
    }
    var body := layout.body;
    if layout.compact != "" {
      body := body + [Text(layout.compact)];
    }
    var footer := layout.footing(layout.shown);
    var components := layout.components;
    if |queue| == 0 && current == None {
      BodyAppend(body, Text(plan.note));
      body := body + [Text(plan.note)];
      components := components + 1;
    }
    view := View(Document(plan.heading, body, footer), layout.shown.count, |queue|, layout.missing, components);
  }

  /** What a view of the positions start to end is; `omitted` tells that the current song did not fit. */
  ghost predicate LaidOut(view: View, omitted: bool, queue: seq<Row>, current: Option<Row>, start: nat, end: nat,
                          footings: Footings, plan: Plan)
    requires Numbered(queue) && 1 <= start <= |queue| + 1 && end <= |queue|
  {
    && view.total == |queue| && start + view.shown <= Max(start, end + 1)
    && view.missing == Artless(Kept(current, omitted, queue, start, view.shown))
    // Exact: the reported and the rendered component counts agree, and both budgets hold.
    && view.components == DocumentCount(view.document) <= COMPONENT_BUDGET
    && DocumentUnits(view.document) <= TEXT_BUDGET
    // Ordered: the message renders the current song and then contiguous positions from the start.
    && (queue != [] || current.Some? ==>
          view.document == Render(Kept(current, omitted, queue, start, view.shown), Choose(footings, omitted), plan))
    // Maximal: with a compact tail only the text budget stops the rows early.
    && (plan.compactTail && start + view.shown <= end ==>
          var more := Kept(current, omitted, queue, start, view.shown + 1);
          DocumentUnits(Render(more, Choose(footings, omitted), plan)) > TEXT_BUDGET)
    && (plan.compactTail && omitted ==>
          current.Some? && DocumentUnits(Render([current.value], footings.plain, plan)) > TEXT_BUDGET)
  }

  method BuildLayout(queue: seq<Row>, current: Option<Row>, request: Request, compactTail: bool)
    returns (range: Range, view: View, ghost omitted: bool)
    requires Numbered(queue) && |queue| < MAX_INT
    requires current.Some? ==> current.value.position == 0 && current.value.text != ""
    ensures range == Select(request, |queue|)
    ensures range.Positions? ==>
      LaidOut(view, omitted, queue, current, range.start, range.end, FootingsOf(|queue|, range.start),
              QueuePlan(compactTail))
  {
    range := Select(request, |queue|);
    omitted := false;
    var plan := QueuePlan(compactTail);
    if !range.Positions? {
      view := View(Document(plan.heading, [], ""), 0, 0, 0, 0);
    } else {
      var footings := FootingsOf(|queue|, range.start);
      FootersFit(|queue|, range.start, plan);
      view, omitted := Assemble(queue, current, range.start, range.end, footings, plan);
    }
  }
}
