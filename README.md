# Grindstone roll and recipe fill, modelled in Dafny

This project models two pieces of decision logic from EMI, a recipe-viewing mod:

- **The grindstone disenchanting recipe.** This synthetic recipe takes one tool and gives back the same tool. Its preview shows the tool with a randomly rolled set of enchantments. `getTool` makes the roll:
  - It draws the number of picks as `1 + max(nextInt(5), nextInt(3))`.
  - For each pick, it draws one enchantment from the registry entries acceptable for the tool.
  - If `maxLevel > 0`, it draws a level in `[1, maxLevel]`; otherwise the level is 0. It then raises the level to `minLevel`.
  - It refuses a pick that repeats, or cannot combine with, an enchantment it has already accepted.
  - It adds an accepted enchantment to the stack only when the enchantment is cursed or the `enchanted` flag is set.
- **`EmiRecipeHandler.performFill` and the interface's default hooks.** `performFill` works in this order:
  - It resolves the stacks a recipe needs.
  - It passes them through the handler's `mutateFill` hook.
  - It brings the screen to the front.
  - It then fills the crafting slots locally and returns that result, or it sends a fill request to the server and returns true.

Modules:

- `Wrappers` (`wrappers.dfy`): the `Option` used for the source's nullable results.
- `HostRandom` (`host_random.dfy`): `java.util.Random`, reduced to a `Random` object over an unbounded stream of raw draws.
  - `nextInt(bound)` yields `stream(pos) % bound` and advances `pos` by one.
  - This mapping can produce every value in `[0, bound)`, so every behaviour of the host generator is covered.
- `Grindstone` (`grindstone.dfy`): the roll.
  - `Roll` is the specification. It is built from `RollCount`, `PickAt`, `Step` and `Iterate` over an explicit stream.
  - `GrindstoneDisenchantingRecipe.GetTool` runs the source's code on a `Random` and a mutable `ItemStack`. It is proved to return exactly what `Roll` applies and to consume exactly the draws `Roll` consumes.
  - The body of `getTool` is split into three methods. `GetTool` creates the stack and draws the count. `AttemptAll` runs the outer loop, including the inner scan and the labelled `continue outer`. `RollLevel` draws and clamps one level.
  - The lemmas state what every roll guarantees.
- `RecipeHandler` (`recipe_handler.dfy`): the fill.
  - `FillEffects` is the specification: the result together with the ordered side effects.
  - `PerformFill` runs on a `Client` object whose log records `SetScreen`, `ClientFill` and `SendFill` events. It is proved to return `FillEffects`' result and to append exactly its events.

Host services that are not shown become parameters:
- the registry and its `isAcceptableItem` and `canCombine` relations;
- the stack resolver `EmiRecipeFiller.getStacks`;
- the result of `EmiRecipeFiller.clientFill`;
- `EmiClient.onServer`.

Two points of the code shape the model:
- **Empty pool.** When no registry entry is acceptable for the tool, `getEnchantment` calls `nextInt(0)` with no guard (EmiGrindstoneDisenchantingRecipe.java:110-111), and that call throws. The model requires a non-empty pool for `GetEnchantment`, `GetTool` and `Roll`.
- **`canCombine`.** The code checks only `earlier.canCombine(later)` (line 94). The model assumes no symmetry, and `Compatible` states that one direction only.

## Model

| member | source | states |
|---|---|---|
| Grindstone.Pool | src/main/java/dev/emi/emi/recipe/special/EmiGrindstoneDisenchantingRecipe.java:110 | the candidate pool holds exactly the registry entries acceptable for the tool's default stack, and is no longer than the registry |
| Grindstone.Filter | src/main/java/dev/emi/emi/recipe/special/EmiGrindstoneDisenchantingRecipe.java:110 | the stream filter keeps exactly the elements that satisfy the predicate and never grows the list |
| Grindstone.RollCount | src/main/java/dev/emi/emi/recipe/special/EmiGrindstoneDisenchantingRecipe.java:76 | the number of picks is `1 + max(nextInt(5), nextInt(3))` from the first two draws, and lies in [1, 5] |
| Grindstone.RawLevel | src/main/java/dev/emi/emi/recipe/special/EmiGrindstoneDisenchantingRecipe.java:84-87 | the level before clamping is in [1, maxLevel] when maxLevel > 0, and is 0 otherwise |
| Grindstone.Clamp | src/main/java/dev/emi/emi/recipe/special/EmiGrindstoneDisenchantingRecipe.java:89-91 | the clamped level is at least minLevel, at least the raw level, and is one of the two |
| Grindstone.PickAt | src/main/java/dev/emi/emi/recipe/special/EmiGrindstoneDisenchantingRecipe.java:82-91 | a pick is the pool entry at `nextInt(pool.size())`; its level is `max(raw, minLevel)`; it uses one draw, plus a second draw exactly when maxLevel > 0 |
| Grindstone.StepBounds | src/main/java/dev/emi/emi/recipe/special/EmiGrindstoneDisenchantingRecipe.java:82-104 | one iteration, accepted or refused, uses 1 or 2 draws, adds at most one accepted enchantment, and only extends the accepted and applied lists |
| Grindstone.CompatibleAppend | src/main/java/dev/emi/emi/recipe/special/EmiGrindstoneDisenchantingRecipe.java:93-98 | accepting an enchantment that no earlier entry equals or refuses to combine with keeps the list free of duplicates, with every earlier entry combining with every later one |
| Grindstone.AcceptKeepsConsistent | src/main/java/dev/emi/emi/recipe/special/EmiGrindstoneDisenchantingRecipe.java:93-104 | accepting a non-conflicting pool entry at a legal level, and applying it exactly when it is shown, keeps the roll consistent |
| Grindstone.StepKeepsConsistent | src/main/java/dev/emi/emi/recipe/special/EmiGrindstoneDisenchantingRecipe.java:82-104 | one iteration, accepted or refused, keeps the roll consistent: picks come from the pool, there are no duplicates, earlier entries combine with later ones, applied is the shown part of accepted, and levels are legal |
| Grindstone.IterateBounds | src/main/java/dev/emi/emi/recipe/special/EmiGrindstoneDisenchantingRecipe.java:80-105 | n iterations use between n and 2n draws, add at most n accepted enchantments, and only extend the two lists |
| Grindstone.IterateKeepsConsistent | src/main/java/dev/emi/emi/recipe/special/EmiGrindstoneDisenchantingRecipe.java:80-105 | every state reached after n iterations from a consistent state is consistent |
| Grindstone.DrawsIndependentOfAcceptance | src/main/java/dev/emi/emi/recipe/special/EmiGrindstoneDisenchantingRecipe.java:81-97 | the draws consumed do not depend on what was accepted earlier: a refused pick has already used its index draw and its level draw |
| Grindstone.Curses | src/main/java/dev/emi/emi/recipe/special/EmiGrindstoneDisenchantingRecipe.java:100-101 | the curse entries of an applied list hold exactly its cursed entries and are no longer than it |
| Grindstone.CursesAppend | src/main/java/dev/emi/emi/recipe/special/EmiGrindstoneDisenchantingRecipe.java:100-104 | appending an entry appends it to the curse entries exactly when it is cursed |
| Grindstone.StepIgnoresFlag | src/main/java/dev/emi/emi/recipe/special/EmiGrindstoneDisenchantingRecipe.java:82-104 | one iteration of the plain and of the enchanted variant from matching states uses the same draws, accepts the same entry, and the plain applied list stays the curse entries of the enchanted one |
| Grindstone.IterateIgnoresFlag | src/main/java/dev/emi/emi/recipe/special/EmiGrindstoneDisenchantingRecipe.java:80-105 | the `enchanted` flag does not change the draws used or the accepted list, and the plain applied list is exactly the curse entries of the enchanted one, levels included |
| Grindstone.PlainVariantIsCursesOfEnchanted | src/main/java/dev/emi/emi/recipe/special/EmiGrindstoneDisenchantingRecipe.java:98-104 | from the same draws, the plain and enchanted variants accept the same list; the plain stack carries exactly the curse entries of the enchanted stack, with the same levels and in the same order, and its kinds are the cursed accepted entries |
| Grindstone.RollGuarantees | src/main/java/dev/emi/emi/recipe/special/EmiGrindstoneDisenchantingRecipe.java:74-113 | a whole roll: exactly `RollCount` iterations after the two count draws; every pick acceptable for the tool; no duplicates, and earlier entries combine with later ones; applied count <= accepted count <= iterations; applied enchantments are the shown accepted ones, in order, with legal levels; without the flag only curses are applied, with it all accepted ones are |
| Grindstone.NothingShownMeansBareTool | src/main/java/dev/emi/emi/recipe/special/EmiGrindstoneDisenchantingRecipe.java:100-104 | without the flag, a pool with no curse yields a bare tool |
| Grindstone.ExamplePoolIsRegistry | src/main/java/dev/emi/emi/recipe/special/EmiGrindstoneDisenchantingRecipe.java:110 | when every entry is acceptable, the pool is the whole registry in registry order |
| Grindstone.ExampleRoll | src/main/java/dev/emi/emi/recipe/special/EmiGrindstoneDisenchantingRecipe.java:74-107 | a concrete roll: three picks; unbreaking, which cannot combine with efficiency, is refused; the curse is applied on both variants; efficiency is applied only with the flag |
| Grindstone.StackOf | src/main/java/dev/emi/emi/recipe/special/EmiGrindstoneDisenchantingRecipe.java:42 | `EmiStack.of(tool)` is one bare stack of the tool |
| Grindstone.ItemStack.AddEnchantment | src/main/java/dev/emi/emi/recipe/special/EmiGrindstoneDisenchantingRecipe.java:100-104 | adding an enchantment appends exactly that entry to the stack's list |
| Grindstone.GrindstoneDisenchantingRecipe.constructor | src/main/java/dev/emi/emi/recipe/special/EmiGrindstoneDisenchantingRecipe.java:26-28 | the recipe keeps the tool it is built for |
| Grindstone.GrindstoneDisenchantingRecipe.GetId | src/main/java/dev/emi/emi/recipe/special/EmiGrindstoneDisenchantingRecipe.java:36-38 | the recipe has no identifier |
| Grindstone.GrindstoneDisenchantingRecipe.GetInputs | src/main/java/dev/emi/emi/recipe/special/EmiGrindstoneDisenchantingRecipe.java:41-43 | the inputs are exactly one bare stack of the tool |
| Grindstone.GrindstoneDisenchantingRecipe.GetOutputs | src/main/java/dev/emi/emi/recipe/special/EmiGrindstoneDisenchantingRecipe.java:46-48 | the outputs are exactly one bare stack of the tool, equal to the inputs |
| Grindstone.GrindstoneDisenchantingRecipe.SupportsRecipeTree | src/main/java/dev/emi/emi/recipe/special/EmiGrindstoneDisenchantingRecipe.java:51-53 | the recipe does not take part in the recipe tree |
| Grindstone.GrindstoneDisenchantingRecipe.GetEnchantment | src/main/java/dev/emi/emi/recipe/special/EmiGrindstoneDisenchantingRecipe.java:109-113 | returns the pool entry at `nextInt(pool.size())` and consumes exactly one draw; the pool must be non-empty |
| Grindstone.GrindstoneDisenchantingRecipe.RollLevel | src/main/java/dev/emi/emi/recipe/special/EmiGrindstoneDisenchantingRecipe.java:84-91 | the level is the clamped raw level of the next draw, and a draw is used exactly when maxLevel > 0 |
| Grindstone.GrindstoneDisenchantingRecipe.AttemptAll | src/main/java/dev/emi/emi/recipe/special/EmiGrindstoneDisenchantingRecipe.java:80-105 | after n passes of the outer loop, the position, the accepted list and the stack's enchantments are exactly n steps of `Step` from where they started |
| Grindstone.GrindstoneDisenchantingRecipe.GetTool | src/main/java/dev/emi/emi/recipe/special/EmiGrindstoneDisenchantingRecipe.java:74-107 | the returned stack is one tool carrying exactly the enchantments `Roll` applies, in order, and the random source has advanced by exactly the draws `Roll` uses |
| HostRandom.Draw | src/main/java/dev/emi/emi/recipe/special/EmiGrindstoneDisenchantingRecipe.java:111 | `nextInt(bound)` yields a value in [0, bound), and any raw draw already in range is kept as is |
| HostRandom.Random.NextInt | src/main/java/dev/emi/emi/recipe/special/EmiGrindstoneDisenchantingRecipe.java:76 | each `nextInt` consumes exactly one draw, and only a positive bound is allowed |
| RecipeHandler.DefaultMutateFill | src/main/java/dev/emi/emi/api/EmiRecipeHandler.java:88-91 | the default hook never aborts and returns the stacks unchanged |
| RecipeHandler.WithDefaultHooks | src/main/java/dev/emi/emi/api/EmiRecipeHandler.java:88-91 | a handler that keeps the default hook maps every stack list to itself |
| RecipeHandler.CraftingSlotsFor | src/main/java/dev/emi/emi/api/EmiRecipeHandler.java:38-40 | the crafting slots for a recipe in a screen are the handler's slots for that screen's handler |
| RecipeHandler.DefaultOutputSlot | src/main/java/dev/emi/emi/api/EmiRecipeHandler.java:46-48 | by default there is no output slot |
| RecipeHandler.DefaultOnlyDisplayWhenApplicable | src/main/java/dev/emi/emi/api/EmiRecipeHandler.java:59-61 | by default the fill button is not restricted to applicable screens |
| RecipeHandler.DefaultCanCraft | src/main/java/dev/emi/emi/api/EmiRecipeHandler.java:63-65 | by default a recipe can be crafted exactly when the player inventory says so |
| RecipeHandler.DefaultInvalidReason | src/main/java/dev/emi/emi/api/EmiRecipeHandler.java:67-69 | by default the reason is always the "emi.not_enough_ingredients" text, whatever the recipe, inventory or screen |
| RecipeHandler.Prepared | src/main/java/dev/emi/emi/api/EmiRecipeHandler.java:72-75 | the stacks to dispatch are absent when resolution fails; otherwise they are the hook's rewrite of the resolved stacks |
| RecipeHandler.FillEffects | src/main/java/dev/emi/emi/api/EmiRecipeHandler.java:71-86 | when either stage aborts: false, with no effects. Otherwise: the screen is activated first, then exactly one dispatch. Off a server, that dispatch is the local fill and the result is its result. On a server, it is a send carrying the handler, the screen, its handler's syncId, `action.id`, the rewritten stacks and the recipe, and the result is true |
| RecipeHandler.FillProtocol | src/main/java/dev/emi/emi/api/EmiRecipeHandler.java:72-82 | a fill has effects iff both stages succeed. It activates the screen exactly as many times as it dispatches (both 1, or both 0). Every activation comes before every dispatch. A send happens only on a server, and a local fill only off one |
| RecipeHandler.FillResult | src/main/java/dev/emi/emi/api/EmiRecipeHandler.java:77-85 | the result is true iff both stages succeed and either the client is on a server or the local fill succeeds |
| RecipeHandler.DispatchCarriesMutatedStacks | src/main/java/dev/emi/emi/api/EmiRecipeHandler.java:74-80 | what a dispatch carries is the hook's output, not the raw resolved stacks |
| RecipeHandler.DefaultHookDispatchesResolvedStacks | src/main/java/dev/emi/emi/api/EmiRecipeHandler.java:71-91 | with the default hook, a fill has effects iff resolution succeeds, and what is dispatched is exactly the resolved stacks |
| RecipeHandler.Client.SetScreen | src/main/java/dev/emi/emi/api/EmiRecipeHandler.java:76 | activating a screen makes it current and logs exactly one activation |
| RecipeHandler.Client.ClientFill | src/main/java/dev/emi/emi/api/EmiRecipeHandler.java:78 | a local fill logs itself and returns the host's answer |
| RecipeHandler.Client.SendFillRecipe | src/main/java/dev/emi/emi/api/EmiRecipeHandler.java:80 | a send logs exactly one request carrying the handler, the screen, its syncId, the action id, the stacks and the recipe |
| RecipeHandler.PerformFill | src/main/java/dev/emi/emi/api/EmiRecipeHandler.java:71-86 | returns `FillEffects`' result and appends exactly its events to the client log. The active screen changes only when there are effects, and `onServer` is unchanged |

## Left out

- `addWidgets`, the background texture, slot positions, `drawBack` and `recipeContext` are rendering and layout.
- `getDisplayWidth`, `getDisplayHeight` and `getCategory` are display metadata only.
- The `uniq` key taken from the global random generator is only a widget key. So is the way the two generated slots call `getTool(r, true)` and `getTool(r, false)` with their own random sources. `GetTool` takes its `Random` as a parameter, so any correlation between the two calls lies outside the model.
- The internals of `java.util.Random` are not modelled. A draw is any integer, and `nextInt(bound)` takes it modulo `bound`.
- The Minecraft enchantment registry, `isAcceptableItem` and `canCombine` become a sequence and two relations with no assumed properties.
- `ItemStack.addEnchantment` appends to a list. NBT encoding is not modelled.
- The bodies of `EmiRecipeFiller.getStacks`, `EmiRecipeFiller.clientFill`, `EmiClient.sendFillRecipe` and `MinecraftClient.setScreen` are not part of this model. They are host I/O and networking, so they appear as functions and as logged events. The slot changes a local fill makes are represented only by its `ClientFill` event and its boolean answer.
- `getInputSources`, `getCraftingSlots(handler)` and `supportsRecipe` are abstract in the interface and have no default to model. `getCraftingSlots(handler)` appears as the handler's `craftingSlots` function.
- `EmiPlayerInventory.canCraft` becomes a relation of the inventory value.
- Enchantment identity: the code compares enchantments by reference (`e == enchantment`, line 94). The model compares values, which agree while registry ids are unique.
- Grindstone.GrindstoneDisenchantingRecipe.GetEnchantment: requires a non-empty pool instead of modelling the exception `nextInt(0)` throws, because nothing in the code catches it.
