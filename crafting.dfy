/**
 * The per-tick press probe, the craft trigger and the craft commit.
 *
 * The press is looked up one block above the table, and only when there is
 * no press there, two blocks above. The trigger is level-triggered: every
 * server tick on which the press head is past the threshold and all three
 * slots are occupied attempts a craft; nothing is latched between ticks.
 */
module Crafting {
  import opened Types
  import opened Interaction

  /**
   * The block entity found at a position above the table: something that is
   * not a mechanical press, or a press whose pressing behaviour may be absent
   * and otherwise reports its head progress (taken at partial tick 0).
   */
  datatype BlockAbove = NotAPress | Press(behaviour: Option<real>)

  /** The press head must be strictly past this progress to trigger a craft. */
  const PressThreshold: real := 0.5

  /**
   * The external recipe manager together with assemble: given the template,
   * base and addition stacks, the stack a matching smithing recipe assembles,
   * if one matches. A matching recipe may assemble an empty stack (the armour
   * trim recipe does so when the base already carries that very trim).
   */
  type Recipe = (ItemStack, ItemStack, ItemStack) -> Option<ItemStack>

  /** The press the table reacts to: the one directly above shadows the one two above. */
  function LocatePress(above1: BlockAbove, above2: BlockAbove): BlockAbove {
    if above1.Press? then above1 else above2
  }

  /** A located press fires when it has a pressing behaviour whose progress is past the threshold. */
  predicate PressFires(press: BlockAbove) {
    press.Press? && press.behaviour.Some? && press.behaviour.value > PressThreshold
  }

  /** Template, base and addition are all occupied. */
  predicate AllOccupied(slots: seq<Slot>)
    requires |slots| == 3
  {
    !slots[0].IsBlank() && !slots[1].IsBlank() && !slots[2].IsBlank()
  }

  /** Whether a server tick with these blocks above attempts a craft. */
  predicate ShouldCraft(side: Side, above1: BlockAbove, above2: BlockAbove, slots: seq<Slot>)
    requires |slots| == 3
  {
    side == ServerSide && PressFires(LocatePress(above1, above2)) && AllOccupied(slots)
  }

  /** The stack a slot hands to the recipe manager: its variant, with its amount as the count. */
  function StackOf(s: Slot): ItemStack {
    ItemStack(s.variant, s.amount)
  }

  /**
   * One craft attempt, as the code does it: without a world, with a blank
   * slot or without a matching recipe nothing happens; on a match all inputs
   * are consumed and slot 0 gets the variant of the assembled stack with
   * amount 1, whether or not that stack is empty.
   */
  function Craft(side: Side, slots: seq<Slot>, recipe: Recipe): Outcome
    requires |slots| == 3
  {
    if side == Unloaded || !AllOccupied(slots) then Outcome(slots, [])
    else
      match recipe(StackOf(slots[0]), StackOf(slots[1]), StackOf(slots[2]))
      case None => Outcome(slots, [])
      case Some(result) =>
        Outcome([Slot(VariantOf(result), 1), EmptySlot, EmptySlot], [NotifyUpdate, LevelEvent(SmithingSoundEvent)])
  }

  /** What the press probe of one tick does, given what a located press reports. */
  function CheckPressing(side: Side, press: BlockAbove, slots: seq<Slot>, recipe: Recipe): Outcome
    requires |slots| == 3
  {
    if PressFires(press) && AllOccupied(slots) then Craft(side, slots, recipe) else Outcome(slots, [])
  }

  /** One tick of the block entity. */
  function TickStep(side: Side, above1: BlockAbove, above2: BlockAbove, slots: seq<Slot>, recipe: Recipe): Outcome
    requires |slots| == 3
  {
    if ShouldCraft(side, above1, above2, slots) then Craft(side, slots, recipe) else Outcome(slots, [])
  }

  /**
   * The trigger rule written out: a tick attempts a craft exactly when it
   * runs on the server, all slots are occupied, and either the block above is
   * a press past the threshold, or the block above is no press at all and
   * the block two above is a press past the threshold.
   */
  lemma TriggerRule(side: Side, above1: BlockAbove, above2: BlockAbove, slots: seq<Slot>)
    requires |slots| == 3
    ensures ShouldCraft(side, above1, above2, slots) <==>
      && side == ServerSide
      && !slots[0].IsBlank() && !slots[1].IsBlank() && !slots[2].IsBlank()
      && (|| (above1.Press? && above1.behaviour.Some? && above1.behaviour.value > 0.5)
          || (above1.NotAPress? && above2.Press? && above2.behaviour.Some? && above2.behaviour.value > 0.5))
  {
  }

  /**
   * A press one block above shadows any block two above, even when the
   * upper press has no pressing behaviour or is below the threshold.
   */
  lemma UpperPressShadowsLower(side: Side, above1: BlockAbove, above2: BlockAbove, other: BlockAbove, slots: seq<Slot>)
    requires |slots| == 3
    requires above1.Press?
    ensures ShouldCraft(side, above1, above2, slots) == ShouldCraft(side, above1, other, slots)
    ensures LocatePress(above1, above2) == LocatePress(above1, other) == above1
  {
  }

  /** A tick whose trigger does not fire changes nothing and emits nothing. */
  lemma QuietTickChangesNothing(side: Side, above1: BlockAbove, above2: BlockAbove, slots: seq<Slot>, recipe: Recipe)
    requires |slots| == 3
    requires !ShouldCraft(side, above1, above2, slots)
    ensures TickStep(side, above1, above2, slots, recipe) == Outcome(slots, [])
  {
  }

  /** A failed craft attempt leaves all three slots exactly as they were and emits nothing. */
  lemma FailedCraftChangesNothing(side: Side, slots: seq<Slot>, recipe: Recipe)
    requires |slots| == 3
    requires || side == Unloaded
             || slots[0].IsBlank() || slots[1].IsBlank() || slots[2].IsBlank()
             || recipe(StackOf(slots[0]), StackOf(slots[1]), StackOf(slots[2])).None?
    ensures Craft(side, slots, recipe) == Outcome(slots, [])
  {
  }

  /**
   * A matching craft consumes all three inputs and writes amount 1 into
   * slot 0 with the variant of the assembled stack: its item when the stack
   * is not empty, the blank variant when it is. It then asks for a
   * save-and-sync and plays the smithing sound.
   */
  lemma MatchingCraftCommits(side: Side, slots: seq<Slot>, recipe: Recipe, result: ItemStack)
    requires |slots| == 3 && side != Unloaded
    requires !slots[0].IsBlank() && !slots[1].IsBlank() && !slots[2].IsBlank()
    requires recipe(StackOf(slots[0]), StackOf(slots[1]), StackOf(slots[2])) == Some(result)
    ensures var o := Craft(side, slots, recipe);
      && o.slots[0].amount == 1
      && (result.IsEmpty() ==> o.slots[0].IsBlank())
      && (!result.IsEmpty() ==> o.slots[0].variant == result.variant)
      && o.slots[1].IsBlank() && o.slots[1].amount == 0
      && o.slots[2].IsBlank() && o.slots[2].amount == 0
      && o.effects == [NotifyUpdate, LevelEvent(1044)]
  {
  }

  /**
   * The level-triggered check cannot craft twice from one set of inputs: after
   * a committed craft, base and addition are blank, so every following tick
   * is quiet until a player refills them, whatever the press is doing.
   */
  lemma NoSecondCraftAfterCommit(side: Side, slots: seq<Slot>, recipe: Recipe, above1: BlockAbove, above2: BlockAbove, next: Recipe)
    requires |slots| == 3
    ensures var o := Craft(side, slots, recipe);
      o.effects != [] ==> TickStep(ServerSide, above1, above2, o.slots, next) == Outcome(o.slots, [])
  {
  }

  /** The press probe delegates exactly to the trigger rule once the press is located. */
  lemma TickIsProbeThenCheck(side: Side, above1: BlockAbove, above2: BlockAbove, slots: seq<Slot>, recipe: Recipe)
    requires |slots| == 3
    requires side == ServerSide
    ensures TickStep(side, above1, above2, slots, recipe) ==
      if above1.Press? then CheckPressing(side, above1, slots, recipe)
      else if above2.Press? then CheckPressing(side, above2, slots, recipe)
      else Outcome(slots, [])
  {
  }

  /**
   * As written, a match whose assembled stack is empty still consumes all
   * three inputs: slot 0 is left blank with amount 1, no slot is occupied, so
   * an empty-handed player gets nothing back, and the slot breaks the
   * capacity-1 invariant.
   */
  lemma EmptyResultLosesInputs(side: Side, slots: seq<Slot>, recipe: Recipe, result: ItemStack)
    requires |slots| == 3 && side != Unloaded
    requires !slots[0].IsBlank() && !slots[1].IsBlank() && !slots[2].IsBlank()
    requires recipe(StackOf(slots[0]), StackOf(slots[1]), StackOf(slots[2])) == Some(result)
    requires result.IsEmpty()
    ensures var o := Craft(side, slots, recipe);
      && o.slots == [Slot(Blank, 1), EmptySlot, EmptySlot]
      && !o.slots[0].HoldsAtMostOne()
      && LastOccupied(o.slots).None?
      && o.effects == [NotifyUpdate, LevelEvent(SmithingSoundEvent)]
  {
  }

  /** The evidently intended lookup: a match that assembles an empty stack counts as no match. */
  function Guarded(recipe: Recipe): (g: Recipe)
    ensures forall t, b, a :: g(t, b, a).Some? ==> !g(t, b, a).value.IsEmpty() && g(t, b, a) == recipe(t, b, a)
    ensures forall t, b, a :: recipe(t, b, a).Some? && !recipe(t, b, a).value.IsEmpty() ==> g(t, b, a) == recipe(t, b, a)
  {
    (t, b, a) =>
      match recipe(t, b, a)
      case Some(result) => if result.IsEmpty() then None else Some(result)
      case None => None
  }

  /**
   * With the guarded lookup, a match that assembles an empty stack keeps all
   * three inputs and emits nothing, and every committed craft leaves one unit
   * of a real item in slot 0.
   */
  lemma GuardedCraftKeepsInputsOnEmptyResult(side: Side, slots: seq<Slot>, recipe: Recipe)
    requires |slots| == 3
    ensures var o := Craft(side, slots, Guarded(recipe));
      && (recipe(StackOf(slots[0]), StackOf(slots[1]), StackOf(slots[2])).Some? &&
          recipe(StackOf(slots[0]), StackOf(slots[1]), StackOf(slots[2])).value.IsEmpty()
          ==> o == Outcome(slots, []))
      && (o.effects != [] ==> o.slots[0].variant.Item? && o.slots[0].HoldsAtMostOne())
  {
    var g := Guarded(recipe);
    var t, b, a := StackOf(slots[0]), StackOf(slots[1]), StackOf(slots[2]);
    if recipe(t, b, a).Some? && recipe(t, b, a).value.IsEmpty() {
      assert g(t, b, a).None?;
    }
  }
}
