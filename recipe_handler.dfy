/**
 * The default behaviour of a recipe handler: the hooks an implementation may
 * leave as they are, and `performFill`, which resolves the stacks a recipe
 * needs, lets the handler rewrite them, brings the screen to the front and
 * then fills the crafting slots locally or asks the server to.
 *
 * The host's services (the stack resolver, the local fill, the network send,
 * the active screen) are the fields and methods of a Client object whose
 * event log records every side effect in order. The function FillEffects is
 * the specification of a fill; the method PerformFill is proved to produce
 * exactly its result and its effects.
 */
module RecipeHandler {
  import opened Wrappers

  // ---------------------------------------------------------------------------
  // Host entities
  // ---------------------------------------------------------------------------

  datatype Recipe = Recipe(id: string)
  datatype ItemStack = ItemStack(item: string, count: int)
  datatype Slot = Slot(index: int)
  datatype ScreenHandler = ScreenHandler(syncId: int)
  /** A handled screen; `handler` is what `getScreenHandler()` returns. */
  datatype Screen = Screen(id: nat, handler: ScreenHandler)
  /** A fill action, known across the network by its `id`. */
  datatype FillAction = FillAction(id: int)
  datatype Text = Translatable(key: string)
  /** What the player inventory can answer about a recipe. */
  datatype PlayerInventory = PlayerInventory(canCraft: Recipe -> bool)

  const NotEnoughIngredients: Text := Translatable("emi.not_enough_ingredients")

  /**
   * A recipe handler: `name` identifies it in network requests,
   * `craftingSlots` is its own `getCraftingSlots(handler)` and `mutateFill`
   * is its (possibly overridden) rewriting hook.
   */
  datatype Handler = Handler(
    name: string,
    craftingSlots: ScreenHandler -> seq<Slot>,
    mutateFill: (Recipe, Screen, seq<ItemStack>) -> Option<seq<ItemStack>>)

  // ---------------------------------------------------------------------------
  // Default hooks
  // ---------------------------------------------------------------------------

  /** The default rewriting hook passes the stacks through and never aborts. */
  function DefaultMutateFill(recipe: Recipe, screen: Screen, stacks: seq<ItemStack>): (r: Option<seq<ItemStack>>)
    ensures r.Some? && r.value == stacks
  {
    Some(stacks)
  }

  /** A handler that keeps the default rewriting hook. */
  function WithDefaultHooks(name: string, craftingSlots: ScreenHandler -> seq<Slot>): (h: Handler)
    ensures h.name == name && h.craftingSlots == craftingSlots
    ensures forall r, s, st :: h.mutateFill(r, s, st) == Some(st)
  {
    Handler(name, craftingSlots, DefaultMutateFill)
  }

  /** The crafting slots for a recipe in a screen are those of the screen's handler. */
  function CraftingSlotsFor(h: Handler, recipe: Recipe, screen: Screen): (slots: seq<Slot>)
    ensures slots == h.craftingSlots(screen.handler)
  {
    h.craftingSlots(screen.handler)
  }

  /** By default no handler has an output slot. */
  function DefaultOutputSlot(handler: ScreenHandler): (slot: Option<Slot>)
    ensures slot.None?
  {
    None
  }

  /** By default the fill button is shown outside applicable screens too. */
  function DefaultOnlyDisplayWhenApplicable(recipe: Recipe): (b: bool)
    ensures !b
  {
    false
  }

  /** By default a recipe can be crafted exactly when the inventory says so. */
  function DefaultCanCraft(recipe: Recipe, inventory: PlayerInventory, screen: Screen): (b: bool)
    ensures b <==> inventory.canCraft(recipe)
  {
    inventory.canCraft(recipe)
  }

  /** By default the reason a fill is refused is always "not enough ingredients". */
  function DefaultInvalidReason(recipe: Recipe, inventory: PlayerInventory, screen: Screen): (t: Text)
    ensures t == Translatable("emi.not_enough_ingredients")
  {
    NotEnoughIngredients
  }

  // ---------------------------------------------------------------------------
  // The specification of a fill
  // ---------------------------------------------------------------------------

  /** The side effects a fill can have, as the client observes them. */
  datatype Event =
    | SetScreen(screen: Screen)
    | ClientFill(recipe: Recipe, target: Screen, stacks: seq<ItemStack>, action: FillAction)
    | SendFill(handler: string, origin: Screen, syncId: int, actionId: int, sent: seq<ItemStack>, request: Recipe)

  predicate IsDispatch(e: Event)
  {
    e.ClientFill? || e.SendFill?
  }

  /** The stacks a dispatch carries to the crafting slots. */
  function Carried(e: Event): (stacks: seq<ItemStack>)
    requires IsDispatch(e)
  {
    if e.ClientFill? then e.stacks else e.sent
  }

  datatype FillOutcome = FillOutcome(filled: bool, effects: seq<Event>)

  /** The stacks a fill dispatches, when resolution and the rewriting hook both succeed. */
  function Prepared(h: Handler, getStacks: (Recipe, Screen, int) -> Option<seq<ItemStack>>,
                    recipe: Recipe, screen: Screen, amount: int): (r: Option<seq<ItemStack>>)
    ensures getStacks(recipe, screen, amount).None? ==> r.None?
    ensures getStacks(recipe, screen, amount).Some? ==> r == h.mutateFill(recipe, screen, getStacks(recipe, screen, amount).value)
  {
    match getStacks(recipe, screen, amount)
    case None => None
    case Some(stacks) => h.mutateFill(recipe, screen, stacks)
  }

  /**
   * The result and the side effects of `performFill`, given the resolver
   * `getStacks`, the local fill `clientFill` and whether the client is
   * connected to a server.
   */
  function FillEffects(h: Handler, getStacks: (Recipe, Screen, int) -> Option<seq<ItemStack>>,
                       clientFill: (Recipe, Screen, seq<ItemStack>, FillAction) -> bool, onServer: bool,
                       recipe: Recipe, screen: Screen, action: FillAction, amount: int): (o: FillOutcome)
    // an abort in either stage: false, and nothing happens
    ensures Prepared(h, getStacks, recipe, screen, amount).None? ==> !o.filled && o.effects == []
    // otherwise: the screen is activated first, then exactly one dispatch
    ensures Prepared(h, getStacks, recipe, screen, amount).Some? ==>
      var stacks := Prepared(h, getStacks, recipe, screen, amount).value;
      && |o.effects| == 2 && o.effects[0] == SetScreen(screen)
      && (!onServer ==> o.effects[1] == ClientFill(recipe, screen, stacks, action)
                        && o.filled == clientFill(recipe, screen, stacks, action))
      && (onServer ==> o.effects[1] == SendFill(h.name, screen, screen.handler.syncId, action.id, stacks, recipe)
                       && o.filled)
  {
    match Prepared(h, getStacks, recipe, screen, amount)
    case None => FillOutcome(false, [])
    case Some(stacks) =>
      if !onServer then
        FillOutcome(clientFill(recipe, screen, stacks, action), [SetScreen(screen), ClientFill(recipe, screen, stacks, action)])
      else
        FillOutcome(true, [SetScreen(screen), SendFill(h.name, screen, screen.handler.syncId, action.id, stacks, recipe)])
  }

  // ---------------------------------------------------------------------------
  // What a fill guarantees
  // ---------------------------------------------------------------------------

  /** The number of screen activations in an event list. */
  function Activations(events: seq<Event>): (n: nat)
    ensures n <= |events|
  {
    if events == [] then 0 else (if events[0].SetScreen? then 1 else 0) + Activations(events[1..])
  }

  /** The number of dispatches (local fills and network sends) in an event list. */
  function DispatchCount(events: seq<Event>): (n: nat)
    ensures n <= |events|
  {
    if events == [] then 0 else (if IsDispatch(events[0]) then 1 else 0) + DispatchCount(events[1..])
  }

  /**
   * A fill has side effects exactly when both stages succeed; it then
   * activates the screen once, before exactly one dispatch, and that dispatch
   * is a network send exactly when the client is on a server.
   */
  lemma FillProtocol(h: Handler, getStacks: (Recipe, Screen, int) -> Option<seq<ItemStack>>,
                     clientFill: (Recipe, Screen, seq<ItemStack>, FillAction) -> bool, onServer: bool,
                     recipe: Recipe, screen: Screen, action: FillAction, amount: int)
    ensures var o := FillEffects(h, getStacks, clientFill, onServer, recipe, screen, action, amount);
      var prepared := Prepared(h, getStacks, recipe, screen, amount);
      && (o.effects != [] <==> prepared.Some?)
      && Activations(o.effects) == DispatchCount(o.effects) == (if prepared.Some? then 1 else 0)
      && (forall i, j :: 0 <= i < |o.effects| && 0 <= j < |o.effects| && o.effects[i].SetScreen? && IsDispatch(o.effects[j]) ==> i < j)
      && (forall e :: e in o.effects && e.SendFill? ==> onServer)
      && (forall e :: e in o.effects && e.ClientFill? ==> !onServer)
      && (forall e :: e in o.effects ==> !e.SetScreen? || e.screen == screen)
  {
  }

  /** The result of a fill: always true on a server, the local fill's answer otherwise, false on abort. */
  lemma FillResult(h: Handler, getStacks: (Recipe, Screen, int) -> Option<seq<ItemStack>>,
                   clientFill: (Recipe, Screen, seq<ItemStack>, FillAction) -> bool, onServer: bool,
                   recipe: Recipe, screen: Screen, action: FillAction, amount: int)
    ensures var o := FillEffects(h, getStacks, clientFill, onServer, recipe, screen, action, amount);
      var prepared := Prepared(h, getStacks, recipe, screen, amount);
      o.filled <==> prepared.Some? && (onServer || clientFill(recipe, screen, prepared.value, action))
  {
  }

  /** Whatever is dispatched is what the rewriting hook returned, not the raw resolved stacks. */
  lemma DispatchCarriesMutatedStacks(h: Handler, getStacks: (Recipe, Screen, int) -> Option<seq<ItemStack>>,
                                     clientFill: (Recipe, Screen, seq<ItemStack>, FillAction) -> bool, onServer: bool,
                                     recipe: Recipe, screen: Screen, action: FillAction, amount: int)
    ensures var o := FillEffects(h, getStacks, clientFill, onServer, recipe, screen, action, amount);
      forall e :: e in o.effects && IsDispatch(e) ==>
        getStacks(recipe, screen, amount).Some? &&
        h.mutateFill(recipe, screen, getStacks(recipe, screen, amount).value) == Some(Carried(e))
  {
  }

  /** With the default hook, the dispatched stacks are exactly the resolved ones. */
  lemma DefaultHookDispatchesResolvedStacks(name: string, craftingSlots: ScreenHandler -> seq<Slot>,
                                            getStacks: (Recipe, Screen, int) -> Option<seq<ItemStack>>,
                                            clientFill: (Recipe, Screen, seq<ItemStack>, FillAction) -> bool, onServer: bool,
                                            recipe: Recipe, screen: Screen, action: FillAction, amount: int)
    ensures var o := FillEffects(WithDefaultHooks(name, craftingSlots), getStacks, clientFill, onServer, recipe, screen, action, amount);
      && (o.effects != [] <==> getStacks(recipe, screen, amount).Some?)
      && forall e :: e in o.effects && IsDispatch(e) ==> Some(Carried(e)) == getStacks(recipe, screen, amount)
  {
    DispatchCarriesMutatedStacks(WithDefaultHooks(name, craftingSlots), getStacks, clientFill, onServer, recipe, screen, action, amount);
  }

  // ---------------------------------------------------------------------------
  // The client and performFill
  // ---------------------------------------------------------------------------

  /**
   * The client side of the host: the stack resolver and the local fill (both
   * outside this model, so given as functions), whether the client is on a
   * server, the active screen and the log of side effects.
   */
  class Client {
    const getStacks: (Recipe, Screen, int) -> Option<seq<ItemStack>>
    const clientFill: (Recipe, Screen, seq<ItemStack>, FillAction) -> bool
    var onServer: bool
    var screen: Option<Screen>
    var log: seq<Event>

    constructor (getStacks: (Recipe, Screen, int) -> Option<seq<ItemStack>>,
                 clientFill: (Recipe, Screen, seq<ItemStack>, FillAction) -> bool, onServer: bool)
      ensures this.getStacks == getStacks && this.clientFill == clientFill && this.onServer == onServer
      ensures screen.None? && log == []
    {
      this.getStacks := getStacks;
      this.clientFill := clientFill;
      this.onServer := onServer;
      screen := None;
      log := [];
    }

    method SetScreen(s: Screen)
      modifies this
      ensures screen == Some(s) && log == old(log) + [Event.SetScreen(s)]
      ensures onServer == old(onServer)
    {
      screen := Some(s);
      log := log + [Event.SetScreen(s)];
    }

    method ClientFill(recipe: Recipe, target: Screen, stacks: seq<ItemStack>, action: FillAction) returns (ok: bool)
      modifies this`log
      ensures ok == clientFill(recipe, target, stacks, action)
      ensures log == old(log) + [Event.ClientFill(recipe, target, stacks, action)]
    {
      ok := clientFill(recipe, target, stacks, action);
      log := log + [Event.ClientFill(recipe, target, stacks, action)];
    }

    method SendFillRecipe(h: Handler, target: Screen, syncId: int, actionId: int, stacks: seq<ItemStack>, recipe: Recipe)
      modifies this`log
      ensures log == old(log) + [Event.SendFill(h.name, target, syncId, actionId, stacks, recipe)]
    {
      log := log + [Event.SendFill(h.name, target, syncId, actionId, stacks, recipe)];
    }
  }

  /** `performFill` with the handler's own hooks: exactly the result and effects FillEffects gives. */
  method PerformFill(h: Handler, client: Client, recipe: Recipe, screen: Screen, action: FillAction, amount: int)
    returns (filled: bool)
    modifies client
    ensures var o := FillEffects(h, client.getStacks, client.clientFill, old(client.onServer), recipe, screen, action, amount);
      && filled == o.filled
      && client.log == old(client.log) + o.effects
      && client.screen == (if o.effects == [] then old(client.screen) else Some(screen))
      && client.onServer == old(client.onServer)
  {
    var stacks := client.getStacks(recipe, screen, amount);
    if stacks.Some? {
      stacks := h.mutateFill(recipe, screen, stacks.value);
      if stacks.Some? {
        client.SetScreen(screen);
        if !client.onServer {
          filled := client.ClientFill(recipe, screen, stacks.value, action);
          return;
        } else {
          client.SendFillRecipe(h, screen, screen.handler.syncId, action.id, stacks.value, recipe);
        }
        return true;
      }
    }
    return false;
  }
}
