/**
 The two-slot record that makes the quota state survive a crash in the middle of a write.

 The byte encoding and its checksum are an arbitrary codec; a torn slot is one whose
 checksum fails.
 */
module StateSlots {
  import opened Prelude
  import opened QuotaAlerts

  const SLOT := 4096

  type Bytes = seq<nat>

  datatype Record = Record(sequence: nat, limit: int, base: nat, alerts: Alerts)

  datatype Codec = Codec(encode: Record -> Bytes, decode: Bytes -> Option<Record>)

  ghost predicate Lawful(codec: Codec) {
    forall r: Record :: |codec.encode(r)| == SLOT && codec.decode(codec.encode(r)) == Some(r)
  }

  type Slots = s: seq<Bytes> | |s| == 2 witness [[], []]

  predicate Whole(slots: Slots) {
    |slots[0]| == SLOT && |slots[1]| == SLOT
  }

  /** The usable content of a slot. */
  function Usable(codec: Codec, slot: Bytes): Option<Record> {
    match codec.decode(slot)
    case None => None
    case Some(r) => if r.limit > 0 then Some(r) else None
  }

  /** The valid record with the greatest sequence number. */
  function Newest(codec: Codec, slots: Slots): Option<Record> {
    var a, b := Usable(codec, slots[0]), Usable(codec, slots[1]);
    if b == None || (a.Some? && b.value.sequence <= a.value.sequence) then a else b
  }

  /** Only the first `cut` bytes of the new content reach the slot. */
  function Torn(before: Bytes, after: Bytes, cut: nat): Bytes
    requires cut <= |before| && cut <= |after|
  {
    after[..cut] + before[cut..]
  }

  function Written(codec: Codec, slots: Slots, r: Record, cut: nat): Slots
    requires Whole(slots) && cut <= SLOT && |codec.encode(r)| == SLOT
  {
    slots[r.sequence % 2 := Torn(slots[r.sequence % 2], codec.encode(r), cut)]
  }

  class StateFile {
    const codec: Codec
    var slots: Slots
    var saved: Record

    constructor (codec: Codec, slots: Slots, saved: Record)
      ensures this.codec == codec && this.slots == slots && this.saved == saved
    {
      this.codec, this.slots, this.saved := codec, slots, saved;
    }

    method Load() returns (ok: bool)
      modifies this`saved
      ensures ok == Newest(codec, slots).Some?
      ensures saved == if ok then Newest(codec, slots).value else old(saved)
    {
      var best := saved;
      var valid := false;
      for i := 0 to 2
        invariant i == 0 ==> !valid
        invariant i == 1 ==> valid == Usable(codec, slots[0]).Some? && (valid ==> best == Usable(codec, slots[0]).value)
        invariant i == 2 ==> valid == Newest(codec, slots).Some? && (valid ==> best == Newest(codec, slots).value)
      {
        var r := codec.decode(slots[i]);
        if r.None? {
          continue;
        }
        if r.value.limit > 0 && (!valid || r.value.sequence > best.sequence) {
          best := r.value;
          valid := true;
        }
      }
      if !valid {
        return false;
      }
      saved := best;
      return true;
    }

    /** The write stops after `cut` bytes. */
    method Save(cut: nat)
      requires Whole(slots) && cut <= SLOT && forall r :: |codec.encode(r)| == SLOT
      modifies this
      ensures saved == old(saved).(sequence := old(saved).sequence + 1)
      ensures slots == Written(codec, old(slots), saved, cut)
    {
      saved := saved.(sequence := saved.sequence + 1);
      var b := codec.encode(saved);
      var slot := saved.sequence % 2;
      slots := slots[slot := b[..cut] + slots[slot][cut..]];
    }
  }

  // ---------------------------------------------------------------------------
  // Atomicity of saves
  // ---------------------------------------------------------------------------

  /** A mixture of two slot contents is recognised as damaged. */
  ghost predicate Detects(codec: Codec, before: Bytes, after: Bytes) {
    forall cut: nat | cut <= |before| && cut <= |after| ::
      var t := Torn(before, after, cut); t == before || t == after || codec.decode(t) == None
  }

  /** The newest record is in the slot of its own parity, and the other slot holds nothing newer. */
  ghost predicate Good(codec: Codec, slots: Slots, r: Record) {
    && Whole(slots) && r.limit > 0
    && codec.decode(slots[r.sequence % 2]) == Some(r)
    && (var other := Usable(codec, slots[(r.sequence + 1) % 2]); other.Some? ==> other.value.sequence < r.sequence)
  }

  lemma GoodIsNewest(codec: Codec, slots: Slots, r: Record)
    requires Good(codec, slots, r)
    ensures Newest(codec, slots) == Some(r)
  {
    assert r.sequence % 2 == 0 || r.sequence % 2 == 1;
  }

  /** This slot holds the record, intact and with a limit. */
  predicate Holds(codec: Codec, slot: Bytes, r: Record) {
    codec.decode(slot) == Some(r) && r.limit > 0
  }

  /** A load finds a record exactly if a slot holds one, and then one that no slot surpasses. */
  lemma LoadsNewest(codec: Codec, slots: Slots)
    ensures Newest(codec, slots) == None <==> forall r :: !Holds(codec, slots[0], r) && !Holds(codec, slots[1], r)
    ensures Newest(codec, slots).Some? ==>
      var r := Newest(codec, slots).value;
      && (Holds(codec, slots[0], r) || Holds(codec, slots[1], r))
      && forall o | Holds(codec, slots[0], o) || Holds(codec, slots[1], o) :: o.sequence <= r.sequence
  {
    var a, b := Usable(codec, slots[0]), Usable(codec, slots[1]);
    assert a.Some? ==> Holds(codec, slots[0], a.value);
    assert b.Some? ==> Holds(codec, slots[1], b.value);
  }

  /** A newly created file holds no record yet. */
  predicate Blank(codec: Codec, slots: Slots) {
    Whole(slots) && Usable(codec, slots[0]) == None && Usable(codec, slots[1]) == None
  }

  /** The first save makes the file good; cut short it leaves one that is refused, never a wrong record. */
  lemma FirstSave(codec: Codec, slots: Slots, r: Record, cut: nat)
    requires Lawful(codec) && Blank(codec, slots) && r.limit > 0 && cut <= SLOT
    requires Detects(codec, slots[r.sequence % 2], codec.encode(r))
    ensures var after := Written(codec, slots, r, cut);
      (cut < SLOT && Newest(codec, after) == None) || Good(codec, after, r)
  {
    var k := r.sequence % 2;
    var t := Torn(slots[k], codec.encode(r), cut);
    if cut == SLOT {
      assert t == codec.encode(r);
    }
    assert r.sequence % 2 == 0 || r.sequence % 2 == 1;
  }

  /** A save, cut anywhere, leaves the old record or the new one. */
  lemma SaveIsAtomic(codec: Codec, slots: Slots, r: Record, next: Record, cut: nat)
    requires Lawful(codec) && Good(codec, slots, r)
    requires next.sequence == r.sequence + 1 && next.limit > 0 && cut <= SLOT
    requires Detects(codec, slots[next.sequence % 2], codec.encode(next))
    ensures var after := Written(codec, slots, next, cut);
      (cut < SLOT && Good(codec, after, r)) || Good(codec, after, next)
  {
    var before, encoded := slots[next.sequence % 2], codec.encode(next);
    var t := Torn(before, encoded, cut);
    assert next.sequence % 2 != r.sequence % 2 && (next.sequence + 1) % 2 == r.sequence % 2;
    if cut == SLOT {
      assert t == encoded;
    }
  }

  /** New contents of the record, and how much of their write reaches the disk. */
  datatype Draft = Draft(limit: int, base: nat, alerts: Alerts, cut: nat)

  function Stamp(d: Draft, sequence: nat): Record {
    Record(sequence, d.limit, d.base, d.alerts)
  }

  /** Load, change, save: `after` is what the torn or complete write leaves, and a torn one is recognised. */
  ghost predicate Saves(codec: Codec, before: Slots, d: Draft, after: Slots)
    requires Lawful(codec)
  {
    && Whole(before) && d.cut <= SLOT && d.limit > 0
    && (Newest(codec, before).Some? ==>
          var next := Stamp(d, Newest(codec, before).value.sequence + 1);
          Detects(codec, before[next.sequence % 2], codec.encode(next)) && after == Written(codec, before, next, d.cut))
  }

  ghost predicate Executes(codec: Codec, states: seq<Slots>, drafts: seq<Draft>)
    requires Lawful(codec)
  {
    && |states| == |drafts| + 1
    && forall i | 0 <= i < |drafts| :: Saves(codec, states[i], drafts[i], states[i + 1])
  }

  /** The loaded record is replaced as a whole or, by an incomplete write, not at all. */
  ghost predicate Replaces(codec: Codec, before: Slots, d: Draft, after: Slots) {
    var old' := Newest(codec, before);
    && old'.Some?
    && var next := Some(Stamp(d, old'.value.sequence + 1));
       (d.cut < SLOT && Newest(codec, after) == old') || Newest(codec, after) == next
  }

  lemma SaveReplaces(codec: Codec, before: Slots, r: Record, d: Draft, after: Slots) returns (r': Record)
    requires Lawful(codec) && Good(codec, before, r) && Saves(codec, before, d, after)
    ensures Good(codec, after, r') && Replaces(codec, before, d, after)
  {
    GoodIsNewest(codec, before, r);
    var next := Stamp(d, r.sequence + 1);
    SaveIsAtomic(codec, before, r, next, d.cut);
    r' := if Good(codec, after, next) then next else r;
    GoodIsNewest(codec, after, r');
  }

  /** Every save of every run, cut at any byte, loads as the last record or as the one being written. */
  lemma {:induction false} CrashSafe(codec: Codec, states: seq<Slots>, drafts: seq<Draft>, r: Record, i: nat)
    returns (r': Record)
    requires Lawful(codec) && Executes(codec, states, drafts) && Good(codec, states[0], r) && i < |states|
    ensures Good(codec, states[i], r')
    ensures i < |drafts| ==> Replaces(codec, states[i], drafts[i], states[i + 1])
  {
    if i == 0 {
      r' := r;
    } else {
      var before := CrashSafe(codec, states, drafts, r, i - 1);
      r' := SaveReplaces(codec, states[i - 1], before, drafts[i - 1], states[i]);
    }
    if i < |drafts| {
      var _ := SaveReplaces(codec, states[i], r', drafts[i], states[i + 1]);
    }
  }
}
