/**
 * The block entity itself: three single-variant storages kept in a fixed
 * array and overwritten in place by player uses, ticks, craft commits and
 * record reads. Each method is tied to the specification function of its
 * module, whose properties are proved there.
 */
module Table {
  import opened Types
  import opened Interaction
  import opened Crafting
  import opened Persistence

  /** A player: the stack in the hand used, which the table may shrink or replace, and whether they are creative. */
  class Player {
    var held: ItemStack
    const creative: bool

    constructor (held: ItemStack, creative: bool)
      ensures this.held == held && this.creative == creative
    {
      this.held := held;
      this.creative := creative;
    }
  }

  class AutoSmithingTableBlockEntity {
    /** Slot 0: template, slot 1: base, slot 2: addition. */
    const inventory: array<Slot>
    /** Save-and-sync requests and level events, in the order emitted. */
    var effects: seq<Effect>

    ghost predicate Valid()
    {
      inventory.Length == 3
    }

    /** Every storage starts blank with amount 0. */
    constructor ()
      ensures Valid() && fresh(inventory)
      ensures inventory[..] == FreshSlots && effects == []
    {
      var inv := new Slot[3];
      var i := 0;
      while i < 3
        invariant 0 <= i <= 3
        invariant forall j :: 0 <= j < i ==> inv[j] == EmptySlot
      {
        inv[i] := EmptySlot;
        i := i + 1;
      }
      inventory := inv;
      effects := [];
    }

    /**
     * A player uses the table. Always handled; off the server nothing
     * changes, otherwise slots, the player's hand and the effects are those
     * of Use.
     */
    method OnUse(side: Side, player: Player) returns (handled: bool)
      requires Valid()
      modifies inventory, player, this`effects
      ensures handled
      ensures var r := Use(side, old(inventory[..]), old(player.held), player.creative);
        inventory[..] == r.slots && player.held == r.held && effects == old(effects) + r.effects
    {
      if side != ServerSide {
        return true;
      }
      var held := player.held;
      if !held.IsEmpty() {
        var i := 0;
        while i < 3
          invariant 0 <= i <= 3
          invariant forall j :: 0 <= j < i ==> !inventory[j].IsBlank()
          invariant inventory[..] == old(inventory[..]) && player.held == old(player.held) && effects == old(effects)
        {
          if inventory[i].IsBlank() {
            inventory[i] := Slot(VariantOf(held), 1);
            if !player.creative {
              player.held := held.Shrink(1);
            }
            effects := effects + [NotifyUpdate];
            return true;
          }
          i := i + 1;
        }
      } else {
        var i := 2;
        while i >= 0
          invariant -1 <= i <= 2
          invariant forall j :: i < j < 3 ==> inventory[j].IsBlank()
          invariant inventory[..] == old(inventory[..]) && player.held == old(player.held) && effects == old(effects)
        {
          if !inventory[i].IsBlank() {
            player.held := ItemStack(inventory[i].variant, 1);
            inventory[i] := EmptySlot;
            effects := effects + [NotifyUpdate];
            return true;
          }
          i := i - 1;
        }
      }
      return true;
    }

    /** One world tick: probe one block above, and only if no press is there, two blocks above. */
    method Tick(side: Side, above1: BlockAbove, above2: BlockAbove, recipe: Recipe)
      requires Valid()
      modifies inventory, this`effects
      ensures var o := TickStep(side, above1, above2, old(inventory[..]), recipe);
        inventory[..] == o.slots && effects == old(effects) + o.effects
    {
      if side != ServerSide {
        return;
      }
      if above1.Press? {
        CheckPressing(side, above1, recipe);
      } else if above2.Press? {
        CheckPressing(side, above2, recipe);
      }
    }

    /** Reads the located press and attempts a craft when its head is past the threshold and all slots are occupied. */
    method CheckPressing(side: Side, press: BlockAbove, recipe: Recipe)
      requires Valid() && press.Press?
      modifies inventory, this`effects
      ensures var o := Crafting.CheckPressing(side, press, old(inventory[..]), recipe);
        inventory[..] == o.slots && effects == old(effects) + o.effects
    {
      if press.behaviour.None? {
        return;
      }
      var progress := press.behaviour.value;
      if progress > PressThreshold && !inventory[0].IsBlank() && !inventory[1].IsBlank() && !inventory[2].IsBlank() {
        AttemptCraft(side, recipe);
      }
    }

    /**
     * One craft attempt: a blank slot or no matching recipe leaves everything
     * as it was; a match clears all slots and writes amount 1 with the
     * variant of the assembled stack into slot 0 (the blank variant when the
     * assembled stack is empty).
     */
    method AttemptCraft(side: Side, recipe: Recipe)
      requires Valid()
      modifies inventory, this`effects
      ensures var o := Craft(side, old(inventory[..]), recipe);
        inventory[..] == o.slots && effects == old(effects) + o.effects
    {
      if side == Unloaded {
        return;
      }
      var i := 0;
      while i < 3
        invariant 0 <= i <= 3
        invariant forall j :: 0 <= j < i ==> !inventory[j].IsBlank()
      {
        if inventory[i].IsBlank() {
          return;
        }
        i := i + 1;
      }
      var found := recipe(StackOf(inventory[0]), StackOf(inventory[1]), StackOf(inventory[2]));
      if found.Some? {
        i := 0;
        while i < 3
          invariant 0 <= i <= 3
          invariant forall j :: 0 <= j < i ==> inventory[j] == EmptySlot
          invariant effects == old(effects)
        {
          inventory[i] := EmptySlot;
          i := i + 1;
        }
        inventory[0] := Slot(VariantOf(found.value), 1);
        effects := effects + [NotifyUpdate, LevelEvent(SmithingSoundEvent)];
      }
    }

    /** Writes every slot under its key into the given compound; the compound's other keys are kept. */
    method Write(compound: Record) returns (out: Record)
      requires Valid()
      ensures out == Encode(inventory[..], compound)
    {
      out := compound;
      var i := 0;
      while i < 3
        invariant 0 <= i <= 3
        invariant out == WriteSlots(inventory[..], compound, i)
      {
        out := out[SlotKey(i) := SlotTag(Some(inventory[i].variant), Some(inventory[i].amount))];
        i := i + 1;
      }
    }

    /** Reads every slot whose key is present with a variant; other slots keep what they held. */
    method Read(compound: Record)
      requires Valid()
      modifies inventory
      ensures inventory[..] == Decode(compound, old(inventory[..]))
    {
      var i := 0;
      while i < 3
        invariant 0 <= i <= 3
        invariant forall j :: 0 <= j < i ==> inventory[j] == ReadSlot(compound, j, old(inventory[j]))
        invariant forall j :: i <= j < 3 ==> inventory[j] == old(inventory[j])
      {
        var key := SlotKey(i);
        if key in compound && compound[key].SlotTag? {
          var tag := compound[key];
          if tag.variant.Some? {
            inventory[i] := Slot(tag.variant.value, tag.amount.GetOr(0));
          }
        }
        i := i + 1;
      }
    }
  }
}

/**
 * A client of the block entity: three players holding one unit of a, b and c
 * fill a freshly placed table, then a player with an empty hand takes the
 * items back one by one (putting each away before the next use).
 */
module Scenario {
  import opened Types
  import opened Interaction
  import opened Table

  method FillThenEmpty(a: nat, b: nat, c: nat) returns (first: Variant, second: Variant, third: Variant)
    ensures first == Item(c) && second == Item(b) && third == Item(a)
  {
    var table := new AutoSmithingTableBlockEntity();
    FillThenEmptyIsLastInFirstOut(a, b, c, false);
    var pa := new Player(ItemStack(Item(a), 1), false);
    var pb := new Player(ItemStack(Item(b), 1), false);
    var pc := new Player(ItemStack(Item(c), 1), false);
    var handled := table.OnUse(ServerSide, pa);
    handled := table.OnUse(ServerSide, pb);
    handled := table.OnUse(ServerSide, pc);
    var taker := new Player(EmptyStack, false);
    handled := table.OnUse(ServerSide, taker);
    first := taker.held.variant;
    taker.held := EmptyStack;
    handled := table.OnUse(ServerSide, taker);
    second := taker.held.variant;
    taker.held := EmptyStack;
    handled := table.OnUse(ServerSide, taker);
    third := taker.held.variant;
  }
}
