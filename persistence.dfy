/**
 * The save / sync record of the table. Each slot i is written under the key
 * "Slot<i>" as a compound holding a "variant" and an "amount"; reading only
 * overwrites a slot whose key is present and whose compound has a variant.
 */
module Persistence {
  import opened Types

  /**
   * The tag found under a key: a compound whose "variant" and "amount" fields
   * may each be missing, or a tag of some other type (which reads as an empty
   * compound).
   */
  datatype Tag = SlotTag(variant: Option<Variant>, amount: Option<int>) | OtherTag

  /** A compound record: keys to tags. Keys other than the slot keys belong to the superclass. */
  type Record = map<string, Tag>

  /** The key of slot i: "Slot" followed by the digit i. */
  function SlotKey(i: nat): (k: string)
    requires i < 3
    ensures |k| == 5 && k[..4] == "Slot"
  {
    "Slot" + [('0' as int + i) as char]
  }

  lemma SlotKeysDistinct(i: nat, j: nat)
    requires i < 3 && j < 3 && i != j
    ensures SlotKey(i) != SlotKey(j)
  {
    assert SlotKey(i)[4] != SlotKey(j)[4];
  }

  const SlotKeys: set<string> := {SlotKey(0), SlotKey(1), SlotKey(2)}

  /** The compound written for one slot. */
  function TagOf(s: Slot): Tag {
    SlotTag(Some(s.variant), Some(s.amount))
  }

  /** The record after slots 0 .. n-1 have been written into base, in that order. */
  function WriteSlots(slots: seq<Slot>, base: Record, n: nat): Record
    requires n <= |slots| && n <= 3
  {
    if n == 0 then base else WriteSlots(slots, base, n - 1)[SlotKey(n - 1) := TagOf(slots[n - 1])]
  }

  /**
   * The whole write: every slot key holds its slot's variant and amount, the
   * superclass's keys are kept, and no other key appears.
   */
  function Encode(slots: seq<Slot>, base: Record): (r: Record)
    requires |slots| == 3
    ensures forall i :: 0 <= i < 3 ==> SlotKey(i) in r && r[SlotKey(i)] == TagOf(slots[i])
    ensures forall k :: k in base && k !in SlotKeys ==> k in r && r[k] == base[k]
    ensures r.Keys == base.Keys + SlotKeys
  {
    SlotKeysDistinct(0, 1);
    SlotKeysDistinct(0, 2);
    SlotKeysDistinct(1, 2);
    assert WriteSlots(slots, base, 1) == base[SlotKey(0) := TagOf(slots[0])];
    assert WriteSlots(slots, base, 2) == WriteSlots(slots, base, 1)[SlotKey(1) := TagOf(slots[1])];
    assert WriteSlots(slots, base, 3) == WriteSlots(slots, base, 2)[SlotKey(2) := TagOf(slots[2])];
    WriteSlots(slots, base, 3)
  }

  /**
   * Reading slot i: a present key whose compound has a variant overwrites
   * both variant and amount (a missing amount reads as 0); otherwise the slot
   * keeps what it held.
   */
  function ReadSlot(r: Record, i: nat, current: Slot): Slot
    requires i < 3
  {
    var key := SlotKey(i);
    if key in r && r[key].SlotTag? && r[key].variant.Some? then
      Slot(r[key].variant.value, r[key].amount.GetOr(0))
    else current
  }

  /** Whether the record carries a variant for slot i. */
  predicate HasVariant(r: Record, i: nat)
    requires i < 3
  {
    SlotKey(i) in r && r[SlotKey(i)].SlotTag? && r[SlotKey(i)].variant.Some?
  }

  /** The whole read, applied to the slots held before it. */
  function Decode(r: Record, slots: seq<Slot>): (s: seq<Slot>)
    requires |slots| == 3
    ensures |s| == 3
    ensures forall i :: 0 <= i < 3 && !HasVariant(r, i) ==> s[i] == slots[i]
    ensures forall i :: 0 <= i < 3 && HasVariant(r, i) ==>
      s[i].variant == r[SlotKey(i)].variant.value &&
      s[i].amount == (if r[SlotKey(i)].amount.Some? then r[SlotKey(i)].amount.value else 0)
  {
    [ReadSlot(r, 0, slots[0]), ReadSlot(r, 1, slots[1]), ReadSlot(r, 2, slots[2])]
  }

  /** Reading what was written restores every slot's variant and amount, whatever the slots held before the read. */
  lemma ReadAfterWrite(slots: seq<Slot>, base: Record, before: seq<Slot>)
    requires |slots| == 3 && |before| == 3
    ensures Decode(Encode(slots, base), before) == slots
  {
    var r := Encode(slots, base);
    var s := Decode(r, before);
    forall i | 0 <= i < 3
      ensures s[i] == slots[i]
    {
      assert HasVariant(r, i);
    }
  }

  /** A record with no slot keys (one written before any slot existed) leaves every slot as it was. */
  lemma ReadWithoutSlotKeysChangesNothing(r: Record, slots: seq<Slot>)
    requires |slots| == 3
    requires forall k :: k in r ==> k !in SlotKeys
    ensures Decode(r, slots) == slots
  {
    var s := Decode(r, slots);
    forall i | 0 <= i < 3
      ensures s[i] == slots[i]
    {
      assert SlotKey(i) in SlotKeys;
    }
  }

  /**
   * Reading trusts the record: a slot key whose compound has a variant but
   * an amount of 2 yields a slot over capacity, and one with no amount yields
   * an occupied slot with amount 0.
   */
  lemma ReadTrustsRecordAmounts(slots: seq<Slot>, id: nat)
    requires |slots| == 3
    ensures var s := Decode(map[SlotKey(0) := SlotTag(Some(Item(id)), Some(2))], slots);
      s[0] == Slot(Item(id), 2) && !s[0].HoldsAtMostOne()
    ensures var s := Decode(map[SlotKey(1) := SlotTag(Some(Item(id)), None)], slots);
      s[1] == Slot(Item(id), 0) && !s[1].HoldsAtMostOne()
  {
    assert HasVariant(map[SlotKey(0) := SlotTag(Some(Item(id)), Some(2))], 0);
    assert HasVariant(map[SlotKey(1) := SlotTag(Some(Item(id)), None)], 1);
  }
}
