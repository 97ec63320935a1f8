/**
 * Values shared by every part of the auto smithing table: item variants,
 * item stacks, the capacity-1 slot, the side of the world a call runs on and
 * the side effects the block entity emits.
 */
module Types {

  datatype Option<T> = None | Some(value: T) {
    function GetOr(default: T): T {
      match this
      case Some(v) => v
      case None => default
    }
  }

  /** An item variant: blank, or one item kind (the id stands for item plus NBT). */
  datatype Variant = Blank | Item(id: nat)

  /** A stack in a player's hand or handed to the recipe manager. */
  datatype ItemStack = ItemStack(variant: Variant, count: int) {
    /** Empty when it holds no item or a non-positive count. */
    predicate IsEmpty() {
      variant.Blank? || count <= 0
    }

    /** Takes n units off the stack, in place in the game. */
    function Shrink(n: int): ItemStack {
      ItemStack(variant, count - n)
    }
  }

  const EmptyStack := ItemStack(Blank, 0)

  /** The variant of a stack: an empty stack has the blank variant. */
  function VariantOf(s: ItemStack): (v: Variant)
    ensures v.Blank? <==> s.IsEmpty()
    ensures !s.IsEmpty() ==> v == s.variant
  {
    if s.IsEmpty() then Blank else s.variant
  }

  /** Every slot storage reports a capacity of one unit. */
  const SlotCapacity := 1

  /** One single-variant storage: its variant and its amount (a 64-bit long in the game). */
  datatype Slot = Slot(variant: Variant, amount: int) {
    /** Blankness looks at the variant only, never at the amount. */
    predicate IsBlank() {
      variant.Blank?
    }

    /** The capacity-1 invariant: blank with amount 0, or one unit of one kind. */
    predicate HoldsAtMostOne() {
      (variant.Blank? && amount == 0) || (variant.Item? && amount == SlotCapacity)
    }

    /**
     * The weaker bound every write of the table keeps: the amount is 0 or 1,
     * and an occupied slot holds exactly one unit (a blank slot may be left
     * with amount 1 by a craft whose assembled stack is empty).
     */
    predicate WithinBound() {
      0 <= amount <= SlotCapacity && (variant.Item? ==> amount == SlotCapacity)
    }
  }

  /** A fresh storage: blank variant, amount 0. */
  const EmptySlot := Slot(Blank, 0)

  /** Whether the world is absent (level == null), a client copy, or the authoritative server. */
  datatype Side = Unloaded | ClientSide | ServerSide

  /** Level event id of the vanilla smithing table sound. */
  const SmithingSoundEvent := 1044

  /** What the block entity tells the world: a save-and-sync request, or a level event. */
  datatype Effect = NotifyUpdate | LevelEvent(id: int)

  /** New slot contents and the effects emitted while producing them. */
  datatype Outcome = Outcome(slots: seq<Slot>, effects: seq<Effect>)

  /** The three slots of a freshly placed table. */
  const FreshSlots := [EmptySlot, EmptySlot, EmptySlot]
}
