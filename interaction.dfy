/**
 * The player-facing insert / remove protocol of the table: a player holding
 * something puts one unit into the lowest blank slot, a player with an empty
 * hand takes back the highest occupied slot (last in, first out).
 */
module Interaction {
  import opened Types

  /** The lowest-indexed blank slot, if any. */
  function FirstBlank(s: seq<Slot>): (r: Option<nat>)
    ensures r.Some? ==> r.value < |s| && s[r.value].IsBlank()
    ensures r.Some? ==> forall j :: 0 <= j < r.value ==> !s[j].IsBlank()
    ensures r.None? ==> forall j :: 0 <= j < |s| ==> !s[j].IsBlank()
  {
    if s == [] then None
    else if s[0].IsBlank() then Some(0)
    else
      match FirstBlank(s[1..])
      case Some(i) => Some(i + 1)
      case None => None
  }

  /** The highest-indexed occupied slot, if any. */
  function LastOccupied(s: seq<Slot>): (r: Option<nat>)
    ensures r.Some? ==> r.value < |s| && !s[r.value].IsBlank()
    ensures r.Some? ==> forall j :: r.value < j < |s| ==> s[j].IsBlank()
    ensures r.None? ==> forall j :: 0 <= j < |s| ==> s[j].IsBlank()
  {
    if s == [] then None
    else if !s[|s| - 1].IsBlank() then Some(|s| - 1)
    else LastOccupied(s[..|s| - 1])
  }

  /** Slots, the player's held stack and effects after one use of the table. */
  datatype UseResult = UseResult(slots: seq<Slot>, held: ItemStack, effects: seq<Effect>)

  /** One player interaction; off the server it does nothing. */
  function Use(side: Side, slots: seq<Slot>, held: ItemStack, creative: bool): UseResult
  {
    if side != ServerSide then UseResult(slots, held, [])
    else if !held.IsEmpty() then
      match FirstBlank(slots)
      case Some(i) =>
        UseResult(slots[i := Slot(VariantOf(held), 1)],
                  if creative then held else held.Shrink(1),
                  [NotifyUpdate])
      case None => UseResult(slots, held, [])
    else
      match LastOccupied(slots)
      case Some(i) => UseResult(slots[i := EmptySlot], ItemStack(slots[i].variant, 1), [NotifyUpdate])
      case None => UseResult(slots, held, [])
  }

  /** Off the server, a use changes nothing. */
  lemma ClientUseChangesNothing(side: Side, slots: seq<Slot>, held: ItemStack, creative: bool)
    requires side != ServerSide
    ensures Use(side, slots, held, creative) == UseResult(slots, held, [])
  {
  }

  /**
   * With a non-empty hand, exactly one unit of the held kind goes into the
   * lowest blank slot i, every other slot is kept, and the held stack loses
   * one unit unless the player is creative.
   */
  lemma InsertFillsLowestBlank(slots: seq<Slot>, held: ItemStack, creative: bool, i: nat)
    requires !held.IsEmpty()
    requires i < |slots| && slots[i].IsBlank()
    requires forall j :: 0 <= j < i ==> !slots[j].IsBlank()
    ensures var r := Use(ServerSide, slots, held, creative);
      && |r.slots| == |slots|
      && r.slots[i] == Slot(held.variant, 1)
      && (forall j :: 0 <= j < |slots| && j != i ==> r.slots[j] == slots[j])
      && r.held == (if creative then held else ItemStack(held.variant, held.count - 1))
      && r.effects == [NotifyUpdate]
  {
  }

  /** With a non-empty hand and every slot occupied, nothing changes at all. */
  lemma InsertIntoFullTableChangesNothing(slots: seq<Slot>, held: ItemStack, creative: bool)
    requires !held.IsEmpty()
    requires forall j :: 0 <= j < |slots| ==> !slots[j].IsBlank()
    ensures Use(ServerSide, slots, held, creative) == UseResult(slots, held, [])
  {
  }

  /**
   * With an empty hand, the highest occupied slot i is emptied and one unit
   * of its kind is handed to the player; every other slot is kept.
   */
  lemma RemoveTakesHighestOccupied(slots: seq<Slot>, held: ItemStack, creative: bool, i: nat)
    requires held.IsEmpty()
    requires i < |slots| && !slots[i].IsBlank()
    requires forall j :: i < j < |slots| ==> slots[j].IsBlank()
    ensures var r := Use(ServerSide, slots, held, creative);
      && |r.slots| == |slots|
      && r.slots[i] == EmptySlot
      && (forall j :: 0 <= j < |slots| && j != i ==> r.slots[j] == slots[j])
      && r.held == ItemStack(slots[i].variant, 1)
      && r.effects == [NotifyUpdate]
  {
  }

  /** With an empty hand and every slot blank, nothing changes at all. */
  lemma RemoveFromEmptyTableChangesNothing(slots: seq<Slot>, held: ItemStack, creative: bool)
    requires held.IsEmpty()
    requires forall j :: 0 <= j < |slots| ==> slots[j].IsBlank()
    ensures Use(ServerSide, slots, held, creative) == UseResult(slots, held, [])
  {
  }

  /**
   * Insertion order and last-in-first-out removal: three players holding
   * kinds a, b, c fill a fresh table as [a, b, c]; three uses with an empty
   * hand then hand back c, b, a and leave the table fresh again.
   */
  lemma FillThenEmptyIsLastInFirstOut(a: nat, b: nat, c: nat, creative: bool)
    ensures
      var s1 := Use(ServerSide, FreshSlots, ItemStack(Item(a), 1), creative).slots;
      var s2 := Use(ServerSide, s1, ItemStack(Item(b), 1), creative).slots;
      var s3 := Use(ServerSide, s2, ItemStack(Item(c), 1), creative).slots;
      var r1 := Use(ServerSide, s3, EmptyStack, creative);
      var r2 := Use(ServerSide, r1.slots, EmptyStack, creative);
      var r3 := Use(ServerSide, r2.slots, EmptyStack, creative);
      && s3 == [Slot(Item(a), 1), Slot(Item(b), 1), Slot(Item(c), 1)]
      && r1.held == ItemStack(Item(c), 1)
      && r2.held == ItemStack(Item(b), 1)
      && r3.held == ItemStack(Item(a), 1)
      && r3.slots == FreshSlots
  {
    var s1 := Use(ServerSide, FreshSlots, ItemStack(Item(a), 1), creative).slots;
    InsertFillsLowestBlank(FreshSlots, ItemStack(Item(a), 1), creative, 0);
    InsertFillsLowestBlank(s1, ItemStack(Item(b), 1), creative, 1);
    var s2 := Use(ServerSide, s1, ItemStack(Item(b), 1), creative).slots;
    InsertFillsLowestBlank(s2, ItemStack(Item(c), 1), creative, 2);
    var s3 := Use(ServerSide, s2, ItemStack(Item(c), 1), creative).slots;
    assert s3 == [Slot(Item(a), 1), Slot(Item(b), 1), Slot(Item(c), 1)];
    RemoveTakesHighestOccupied(s3, EmptyStack, creative, 2);
    var r1 := Use(ServerSide, s3, EmptyStack, creative);
    RemoveTakesHighestOccupied(r1.slots, EmptyStack, creative, 1);
    var r2 := Use(ServerSide, r1.slots, EmptyStack, creative);
    RemoveTakesHighestOccupied(r2.slots, EmptyStack, creative, 0);
    var r3 := Use(ServerSide, r2.slots, EmptyStack, creative);
    assert r3.slots == FreshSlots;
  }
}
