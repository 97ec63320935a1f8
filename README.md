# Auto smithing table, modelled in Dafny

This project models the automated smithing station of the Create Auto Armour add-on:
`AutoSmithingTableBlockEntity`. The entity owns three single-variant item storages of
capacity 1 (slot 0 template, slot 1 base, slot 2 addition) and four operations:

- **Player use (`onUse`).** A player holding an item puts one unit into the lowest blank
  slot. Their stack shrinks by one unless they are creative. A player with an empty hand
  takes back the highest occupied slot, so removal is last in, first out. The call
  always reports "handled". Off the server it changes nothing.
- **Tick and press probe (`tick`, `checkPressing`).** On the server, the table looks for a
  mechanical press one block above. Only when none is there does it look two blocks
  above. It attempts a craft when the press has a pressing behaviour, the head progress
  is above 0.5 and all three slots are occupied. The check is level-triggered: nothing
  is latched between ticks.
- **Craft commit (`attemptCraft`).** With all slots occupied and a matching recipe, all
  three slots are cleared. Slot 0 then gets the variant of the assembled stack with
  amount 1. When the assembled stack is empty, that variant is blank, so slot 0 ends up
  blank with amount 1 and the inputs are gone (see "## Findings"). The table then asks
  for a save and sync and plays level event 1044 (the smithing table sound).
  Otherwise nothing changes. The method itself checks only that a world is present,
  not which side it runs on, so `Crafting.Craft` would also commit on a client; the tick
  calls it only on the server.
- **Persistence (`write`, `read`).** Each slot is written under `Slot0`..`Slot2` as a
  compound with a `variant` and an `amount`. Reading overwrites a slot only when its key
  is present and the compound has a `variant`. A missing `amount` reads as 0.

Files, one module each (the last file also holds a small client module, `Scenario`):

- `types.dfy` (`Types`): variants, item stacks, the slot, the side, the effects.
- `interaction.dfy` (`Interaction`): the use protocol as the function `Use`, with its
  scans `FirstBlank` and `LastOccupied`, and its lemmas.
- `crafting.dfy` (`Crafting`): the press probe, the trigger rule `ShouldCraft`, the
  commit `Craft` and the tick `TickStep`, with their lemmas.
- `persistence.dfy` (`Persistence`): the record `Encode` / `Decode`, the round trip and
  the missing-key behaviour.
- `invariants.dfy` (`Invariants`): what the slots keep across any run of events. As
  written, every slot keeps amount 0 or 1, and an occupied slot holds exactly 1. With
  the guarded recipe lookup (`Crafting.Guarded`), every slot is also never blank with
  amount 1, which is the full capacity-1 invariant.
- `table.dfy` (`Table`, `Scenario`): the class `AutoSmithingTableBlockEntity` over an
  `array<Slot>` of length 3. Its methods keep the source's loops and are proved equal to
  the specification functions above.

External collaborators are parameters:

- the world side (`Unloaded` for `level == null`, `ClientSide`, `ServerSide`);
- the blocks one and two above (`NotAPress`, or `Press` with an optional head progress,
  a real number);
- the recipe manager with `assemble`, a total function from the three stacks to the
  optional assembled stack (`None` when no recipe matches; a match may assemble an
  empty stack);
- the player, a class holding the stack in the used hand and a creative flag.

Two facts about the code that the model keeps:

- An absent `Slot<i>` key leaves the slot untouched; it is not reset to blank. This is
  what `Persistence.Decode` states.
- There is no checked slot setter. The code writes `variant` and `amount` directly,
  always with amount 0 or 1. The exception is `read`, which stores the recorded amount
  as it is (`Persistence.ReadTrustsRecordAmounts`).

## Model

| member | source | states |
|---|---|---|
| Types.VariantOf | src/main/java/revilo/createautoarm/block/AutoSmithingTableBlockEntity.java:101 | the variant of a stack is blank exactly when the stack is empty, and otherwise is the stack's item |
| Interaction.FirstBlank | src/main/java/revilo/createautoarm/block/AutoSmithingTableBlockEntity.java:99-100 | the forward scan finds the lowest-indexed blank slot, or reports that every slot is occupied |
| Interaction.LastOccupied | src/main/java/revilo/createautoarm/block/AutoSmithingTableBlockEntity.java:110-111 | the reverse scan finds the highest-indexed occupied slot, or reports that every slot is blank |
| Interaction.ClientUseChangesNothing | src/main/java/revilo/createautoarm/block/AutoSmithingTableBlockEntity.java:94 | without a world or on the client, a use changes no slot, no held stack and emits nothing |
| Interaction.InsertFillsLowestBlank | src/main/java/revilo/createautoarm/block/AutoSmithingTableBlockEntity.java:97-106 | with a non-empty hand, one unit of the held kind goes into the lowest blank slot, every other slot is kept, the held count drops by one unless creative, and one update is requested |
| Interaction.InsertIntoFullTableChangesNothing | src/main/java/revilo/createautoarm/block/AutoSmithingTableBlockEntity.java:98-120 | with a non-empty hand and no blank slot, no slot, no held stack and no effect changes |
| Interaction.RemoveTakesHighestOccupied | src/main/java/revilo/createautoarm/block/AutoSmithingTableBlockEntity.java:108-117 | with an empty hand, the highest occupied slot becomes blank with amount 0, the player receives one unit of its kind, other slots are kept |
| Interaction.RemoveFromEmptyTableChangesNothing | src/main/java/revilo/createautoarm/block/AutoSmithingTableBlockEntity.java:108-120 | with an empty hand and every slot blank, nothing changes |
| Interaction.FillThenEmptyIsLastInFirstOut | src/main/java/revilo/createautoarm/block/AutoSmithingTableBlockEntity.java:97-120 | inserting a, b, c into a fresh table fills slots 0, 1, 2 in that order; three empty-handed uses return c, b, a and leave the table fresh |
| Crafting.TriggerRule | src/main/java/revilo/createautoarm/block/AutoSmithingTableBlockEntity.java:61-90 | a tick attempts a craft if and only if it runs on the server, all three slots are occupied, and the press above has progress > 0.5, or there is no press above and the press two above has progress > 0.5 |
| Crafting.UpperPressShadowsLower | src/main/java/revilo/createautoarm/block/AutoSmithingTableBlockEntity.java:66-76 | a press one block above is the press used, whatever is two blocks above, even with no behaviour or low progress |
| Crafting.TickIsProbeThenCheck | src/main/java/revilo/createautoarm/block/AutoSmithingTableBlockEntity.java:66-76 | a server tick does what checking the upper press does, else what checking the lower press does, else nothing |
| Crafting.QuietTickChangesNothing | src/main/java/revilo/createautoarm/block/AutoSmithingTableBlockEntity.java:59-90 | a tick whose trigger does not fire leaves the slots unchanged and emits nothing |
| Crafting.FailedCraftChangesNothing | src/main/java/revilo/createautoarm/block/AutoSmithingTableBlockEntity.java:123-134 | without a world, with any blank slot, or without a recipe match, a craft attempt leaves all three slots unchanged and emits nothing |
| Crafting.MatchingCraftCommits | src/main/java/revilo/createautoarm/block/AutoSmithingTableBlockEntity.java:133-149 | on a match, slot 0 gets amount 1 and the assembled stack's item, or the blank variant if that stack is empty; slots 1 and 2 are blank with amount 0; an update and level event 1044 are emitted |
| Crafting.EmptyResultLosesInputs | src/main/java/revilo/createautoarm/block/AutoSmithingTableBlockEntity.java:131-149 | as written, a match whose assembled stack is empty leaves slots `[blank with amount 1, empty, empty]`: the inputs are consumed, nothing can be taken back, and slot 0 breaks the capacity-1 invariant |
| Crafting.Guarded | src/main/java/revilo/createautoarm/block/AutoSmithingTableBlockEntity.java:131-134 | the guarded lookup answers a match exactly when the recipe matches with a non-empty assembled stack, and then gives that same stack |
| Crafting.GuardedCraftKeepsInputsOnEmptyResult | src/main/java/revilo/createautoarm/block/AutoSmithingTableBlockEntity.java:131-149 | with the guarded lookup, a match with an empty assembled stack keeps every slot and emits nothing, and a committed craft leaves one unit of a real item in slot 0 |
| Crafting.NoSecondCraftAfterCommit | src/main/java/revilo/createautoarm/block/AutoSmithingTableBlockEntity.java:88-145 | after a committed craft no tick attempts another, whatever the presses and the recipe, because base and addition are blank |
| Persistence.Encode | src/main/java/revilo/createautoarm/block/AutoSmithingTableBlockEntity.java:155-163 | writing puts each slot's variant and amount under its own key `Slot<i>`, keeps every other key of the compound, and adds no other key |
| Persistence.Decode | src/main/java/revilo/createautoarm/block/AutoSmithingTableBlockEntity.java:166-177 | a slot whose key is missing, or whose compound has no variant, is kept exactly; otherwise it takes the recorded variant and amount, with a missing amount read as 0 |
| Persistence.ReadAfterWrite | src/main/java/revilo/createautoarm/block/AutoSmithingTableBlockEntity.java:155-177 | reading what was written restores every slot's variant and amount, whatever the slots held before the read |
| Persistence.ReadWithoutSlotKeysChangesNothing | src/main/java/revilo/createautoarm/block/AutoSmithingTableBlockEntity.java:168-169 | a record with no slot keys leaves all three slots as they were |
| Persistence.ReadTrustsRecordAmounts | src/main/java/revilo/createautoarm/block/AutoSmithingTableBlockEntity.java:171-174 | a record can give an occupied slot amount 2 or amount 0: read does not enforce the capacity |
| Invariants.FreshTableWithinCapacity | src/main/java/revilo/createautoarm/block/AutoSmithingTableBlockEntity.java:32-42 | each of the three slots of a freshly built table is blank with amount 0 |
| Invariants.UseKeepsCapacity | src/main/java/revilo/createautoarm/block/AutoSmithingTableBlockEntity.java:99-117 | a use keeps the capacity-1 invariant (every slot blank with amount 0, or one unit of one kind), and keeps the weaker bound (amount 0 or 1, occupied means 1) |
| Invariants.CraftKeepsBound | src/main/java/revilo/createautoarm/block/AutoSmithingTableBlockEntity.java:123-150 | as written, a craft attempt keeps every slot at amount 0 or 1 with every occupied slot at 1 |
| Invariants.GuardedCraftKeepsCapacity | src/main/java/revilo/createautoarm/block/AutoSmithingTableBlockEntity.java:123-150 | with the guarded lookup, a craft attempt keeps the capacity-1 invariant |
| Invariants.TickKeepsInvariants | src/main/java/revilo/createautoarm/block/AutoSmithingTableBlockEntity.java:59-90 | a tick keeps the weaker bound as written, and the capacity-1 invariant with the guarded lookup |
| Invariants.StepKeepsInvariants | src/main/java/revilo/createautoarm/block/AutoSmithingTableBlockEntity.java:93-177 | any single use, tick, direct craft call, or write followed by read keeps the weaker bound, and with the guarded lookup the capacity-1 invariant |
| Invariants.RunStaysWithinBound | src/main/java/revilo/createautoarm/block/AutoSmithingTableBlockEntity.java:40-42 | as written, no sequence of uses, ticks, craft calls and save/load round trips gives a slot an amount outside 0..1 or an occupied slot an amount other than 1 |
| Invariants.GuardedRunKeepsCapacity | src/main/java/revilo/createautoarm/block/AutoSmithingTableBlockEntity.java:40-42 | with the guarded lookup, no such sequence takes a slot out of the capacity-1 invariant |
| Invariants.FreshTableStaysWithinCapacity | src/main/java/revilo/createautoarm/block/AutoSmithingTableBlockEntity.java:30-51 | a table placed fresh keeps the weaker bound as written, and the capacity-1 invariant with the guarded lookup, whatever happens to it |
| Invariants.AsWrittenRunCanLeaveCapacity | src/main/java/revilo/createautoarm/block/AutoSmithingTableBlockEntity.java:131-144 | as written, one craft call whose match assembles an empty stack takes a full table out of the capacity-1 invariant, though not out of the weaker bound |
| Table.AutoSmithingTableBlockEntity.constructor | src/main/java/revilo/createautoarm/block/AutoSmithingTableBlockEntity.java:30-51 | the three storages start blank with amount 0 in a fresh array of length 3 |
| Table.AutoSmithingTableBlockEntity.OnUse | src/main/java/revilo/createautoarm/block/AutoSmithingTableBlockEntity.java:93-121 | always returns true; the new slots, the player's held stack and the emitted effects are those of `Use` on the old state |
| Table.AutoSmithingTableBlockEntity.Tick | src/main/java/revilo/createautoarm/block/AutoSmithingTableBlockEntity.java:59-77 | the new slots and effects are those of `TickStep` on the old slots |
| Table.AutoSmithingTableBlockEntity.CheckPressing | src/main/java/revilo/createautoarm/block/AutoSmithingTableBlockEntity.java:79-91 | the new slots and effects are those of the press check on the old slots |
| Table.AutoSmithingTableBlockEntity.AttemptCraft | src/main/java/revilo/createautoarm/block/AutoSmithingTableBlockEntity.java:123-152 | the new slots and effects are those of `Craft` on the old slots, including the empty-assembled-stack path |
| Table.AutoSmithingTableBlockEntity.Write | src/main/java/revilo/createautoarm/block/AutoSmithingTableBlockEntity.java:155-163 | returns the compound `Encode` gives for the current slots, changing nothing |
| Table.AutoSmithingTableBlockEntity.Read | src/main/java/revilo/createautoarm/block/AutoSmithingTableBlockEntity.java:166-177 | the new slots are those `Decode` gives for the record and the old slots |
| Scenario.FillThenEmpty | src/main/java/revilo/createautoarm/block/AutoSmithingTableBlockEntity.java:93-121 | through the class's methods, three inserts then three empty-handed uses hand back c, b, a |

## Left out

- The renderer (`AutoSmithingTableRenderer`) only reads the slots each frame to draw them. It is not part of this model.
- The mixin on the vanilla smithing table (`SmithingTableMixin`) creates the block entity and forwards `use` to `onUse`. It is not part of this model; `OnUse` always returns true, which is all the mixin relies on.
- Recipe matching and `assemble` belong to the game's recipe manager. They are an abstract total function from the three stacks to an optional assembled stack. Only the stack's variant (blank when the stack is empty) reaches the table, because the table always stores amount 1.
- The press head offset is a float animation value. It is a real compared with 0.5; float rounding is not modelled.
- `ItemVariant` serialisation (`toNbt`/`fromNbt`) is the identity on variants here. A variant is an item id standing for item plus NBT.
- The amount is a Java `long`. It is an unbounded integer here, and the `(int)` cast in the recipe input (line 129) is not modelled. Every state the table reaches by its own writes has amount 0 or 1, where the cast changes nothing.
- `setChanged`, `sendData`, `notifyUpdate` and `level.levelEvent(1044, ...)` are recorded as an effect list (`NotifyUpdate`, `LevelEvent(1044)`), not carried out.
- The Fabric transaction hook `onFinalCommit` is not modelled. The table writes `variant` and `amount` directly and never opens a transaction, so the hook does not run on these paths.
- `super.tick`, `super.write` and `super.read` belong to the framework. The superclass's record keys are kept untouched by `Encode`, and the `clientPacket` flag is ignored, as in the code.
- The choice of hand is folded into the player: `Player.held` is the stack in the hand used.
- A tag under `Slot<i>` that is not a compound reads as an empty compound (`OtherTag`), so it leaves the slot untouched.

## Findings

| source | as written | input that shows it | evidently intended | confidence | as-written member | corrected member |
|---|---|---|---|---|---|---|
| src/main/java/revilo/createautoarm/block/AutoSmithingTableBlockEntity.java:131-144 | on a recipe match the inputs are cleared and slot 0 gets `ItemVariant.of(result)` with amount 1, even when `assemble` returned an empty stack | a trim template, an armour piece that already carries that exact trim, and the same trim material: the vanilla trim recipe matches but assembles an empty stack, so all three inputs vanish and slot 0 is left blank with amount 1 | a match that assembles an empty stack counts as no match, and the inputs stay in place | medium, not executed | Crafting.EmptyResultLosesInputs | Crafting.GuardedCraftKeepsInputsOnEmptyResult |

The class `AutoSmithingTableBlockEntity` and `Crafting.Craft` model the code as written.
The corrected behaviour is `Craft` given the lookup `Crafting.Guarded(recipe)`. Under it,
`Invariants.GuardedRunKeepsCapacity` proves the capacity-1 invariant for every run.
