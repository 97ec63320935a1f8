/**
 * What the slots keep across any sequence of uses, ticks, craft calls and
 * save/load round trips.
 *
 * As written, every write of the table leaves a slot with amount 0 or 1 and
 * an occupied slot with exactly one unit (WithinBound). The stronger
 * capacity-1 invariant (blank with amount 0, or one unit of one kind) needs
 * the guarded recipe lookup, under which an empty assembled stack counts as
 * no match.
 */
module Invariants {
  import opened Types
  import opened Interaction
  import opened Crafting
  import opened Persistence

  /** Every slot is blank with amount 0 or holds exactly one unit of one kind. */
  predicate WithinCapacity(slots: seq<Slot>) {
    forall i :: 0 <= i < |slots| ==> slots[i].HoldsAtMostOne()
  }

  /** Every slot has amount 0 or 1, and every occupied slot has amount 1. */
  predicate WithinBound(slots: seq<Slot>) {
    forall i :: 0 <= i < |slots| ==> slots[i].WithinBound()
  }

  lemma FreshTableWithinCapacity()
    ensures forall i :: 0 <= i < 3 ==> FreshSlots[i] == EmptySlot
    ensures WithinCapacity(FreshSlots) && WithinBound(FreshSlots)
  {
  }

  lemma UseKeepsCapacity(side: Side, slots: seq<Slot>, held: ItemStack, creative: bool)
    ensures WithinCapacity(slots) ==> WithinCapacity(Use(side, slots, held, creative).slots)
    ensures WithinBound(slots) ==> WithinBound(Use(side, slots, held, creative).slots)
  {
  }

  /** As written, a craft attempt keeps the weaker bound. */
  lemma CraftKeepsBound(side: Side, slots: seq<Slot>, recipe: Recipe)
    requires |slots| == 3 && WithinBound(slots)
    ensures WithinBound(Craft(side, slots, recipe).slots)
  {
  }

  /** With the guarded lookup, a craft attempt keeps the capacity-1 invariant. */
  lemma GuardedCraftKeepsCapacity(side: Side, slots: seq<Slot>, recipe: Recipe)
    requires |slots| == 3 && WithinCapacity(slots)
    ensures WithinCapacity(Craft(side, slots, Guarded(recipe)).slots)
  {
    GuardedCraftKeepsInputsOnEmptyResult(side, slots, recipe);
  }

  /** The recipe a run hands to the table: as given, or guarded. */
  function Lookup(recipe: Recipe, guarded: bool): Recipe {
    if guarded then Guarded(recipe) else recipe
  }

  lemma TickKeepsInvariants(side: Side, above1: BlockAbove, above2: BlockAbove, slots: seq<Slot>, recipe: Recipe)
    requires |slots| == 3
    ensures WithinBound(slots) ==> WithinBound(TickStep(side, above1, above2, slots, recipe).slots)
    ensures WithinCapacity(slots) ==> WithinCapacity(TickStep(side, above1, above2, slots, Guarded(recipe)).slots)
  {
    if WithinBound(slots) {
      CraftKeepsBound(side, slots, recipe);
    }
    if WithinCapacity(slots) {
      GuardedCraftKeepsCapacity(side, slots, recipe);
    }
  }

  /** Everything that can happen to the table from outside. */
  datatype Event =
    | PlayerUse(side: Side, held: ItemStack, creative: bool)
    | WorldTick(side: Side, above1: BlockAbove, above2: BlockAbove, recipe: Recipe)
    | CraftCall(side: Side, recipe: Recipe)
    | SaveAndLoad(base: Record)

  /** The slots after one event, with each recipe lookup as given or guarded. */
  function Step(slots: seq<Slot>, e: Event, guarded: bool): (s: seq<Slot>)
    requires |slots| == 3
    ensures |s| == 3
  {
    match e
    case PlayerUse(side, held, creative) => Use(side, slots, held, creative).slots
    case WorldTick(side, above1, above2, recipe) => TickStep(side, above1, above2, slots, Lookup(recipe, guarded)).slots
    case CraftCall(side, recipe) => Craft(side, slots, Lookup(recipe, guarded)).slots
    case SaveAndLoad(base) => Decode(Encode(slots, base), slots)
  }

  /** The slots after a whole run of events, in order. */
  function Run(slots: seq<Slot>, events: seq<Event>, guarded: bool): (s: seq<Slot>)
    requires |slots| == 3
    ensures |s| == 3
    decreases |events|
  {
    if events == [] then slots else Run(Step(slots, events[0], guarded), events[1..], guarded)
  }

  lemma StepKeepsInvariants(slots: seq<Slot>, e: Event, guarded: bool)
    requires |slots| == 3
    ensures WithinBound(slots) ==> WithinBound(Step(slots, e, guarded))
    ensures guarded && WithinCapacity(slots) ==> WithinCapacity(Step(slots, e, guarded))
  {
    match e
    case PlayerUse(side, held, creative) =>
      UseKeepsCapacity(side, slots, held, creative);
    case WorldTick(side, above1, above2, recipe) =>
      TickKeepsInvariants(side, above1, above2, slots, recipe);
      TickKeepsInvariants(side, above1, above2, slots, Lookup(recipe, guarded));
    case CraftCall(side, recipe) =>
      if WithinBound(slots) {
        CraftKeepsBound(side, slots, Lookup(recipe, guarded));
      }
      if guarded && WithinCapacity(slots) {
        GuardedCraftKeepsCapacity(side, slots, recipe);
      }
    case SaveAndLoad(base) =>
      ReadAfterWrite(slots, base, slots);
  }

  /** As written, no run of events starting within the bound ever leaves it. */
  lemma {:induction false} RunStaysWithinBound(slots: seq<Slot>, events: seq<Event>)
    requires |slots| == 3 && WithinBound(slots)
    ensures WithinBound(Run(slots, events, false))
    decreases |events|
  {
    if events != [] {
      StepKeepsInvariants(slots, events[0], false);
      RunStaysWithinBound(Step(slots, events[0], false), events[1..]);
    }
  }

  /** With the guarded lookup, no run of events starting within capacity ever leaves it. */
  lemma {:induction false} GuardedRunKeepsCapacity(slots: seq<Slot>, events: seq<Event>)
    requires |slots| == 3 && WithinCapacity(slots)
    ensures WithinCapacity(Run(slots, events, true))
    decreases |events|
  {
    if events != [] {
      StepKeepsInvariants(slots, events[0], true);
      GuardedRunKeepsCapacity(Step(slots, events[0], true), events[1..]);
    }
  }

  /**
   * A table placed fresh never holds more than one unit in a slot, and an
   * occupied slot always holds exactly one; with the guarded lookup it is
   * moreover never left blank with amount 1.
   */
  lemma FreshTableStaysWithinCapacity(events: seq<Event>)
    ensures WithinBound(Run(FreshSlots, events, false))
    ensures WithinCapacity(Run(FreshSlots, events, true))
  {
    RunStaysWithinBound(FreshSlots, events);
    GuardedRunKeepsCapacity(FreshSlots, events);
  }

  /** The weaker bound is all that survives as written: one matching craft with an empty result leaves it and no more. */
  lemma AsWrittenRunCanLeaveCapacity(t: nat, b: nat, a: nat)
    ensures var events := [CraftCall(ServerSide, (x: ItemStack, y: ItemStack, z: ItemStack) => Some(EmptyStack))];
      var s := Run([Slot(Item(t), 1), Slot(Item(b), 1), Slot(Item(a), 1)], events, false);
      !WithinCapacity(s) && WithinBound(s)
  {
    var start := [Slot(Item(t), 1), Slot(Item(b), 1), Slot(Item(a), 1)];
    var recipe := (x: ItemStack, y: ItemStack, z: ItemStack) => Some(EmptyStack);
    var events := [CraftCall(ServerSide, recipe)];
    EmptyResultLosesInputs(ServerSide, start, recipe, EmptyStack);
    assert Run(start, events, false) == Run(Step(start, events[0], false), events[1..], false);
    assert events[1..] == [];
  }
}
