/**
 * The grindstone disenchanting recipe: a synthetic recipe whose input and
 * output are the same tool, shown with a randomly rolled set of enchantments.
 *
 * The roll is specified by the function Roll over an explicit stream of
 * random draws; the method GrindstoneDisenchantingRecipe.GetTool performs it
 * step by step on a Random object and an ItemStack and is proved to agree
 * with Roll. The lemmas state what every roll guarantees.
 */
module Grindstone {
  import opened Wrappers
  import opened HostRandom

  // ---------------------------------------------------------------------------
  // Host entities
  // ---------------------------------------------------------------------------

  datatype Item = Item(id: string)

  /**
   * A registered enchantment. The host compares enchantments by reference;
   * the model compares these values, which agree as long as registry ids are unique.
   */
  datatype Enchantment = Enchantment(id: string, minLevel: int, maxLevel: int, cursed: bool)

  /**
   * The host's enchantment registry together with the two relations the roll
   * queries: `isAcceptableItem(e, item)` and `canCombine(e, other)`. Neither
   * relation is assumed to be symmetric or to have any other property.
   */
  datatype Registry = Registry(
    entries: seq<Enchantment>,
    isAcceptableItem: (Enchantment, Item) -> bool,
    canCombine: (Enchantment, Enchantment) -> bool)

  datatype AppliedEnchantment = AppliedEnchantment(enchantment: Enchantment, level: int)

  /** A displayed stack: an item, an amount and the enchantments it carries, in the order added. */
  datatype EmiStack = EmiStack(item: Item, amount: nat, enchantments: seq<AppliedEnchantment>)

  /** `EmiStack.of(item)`: one bare item. */
  function StackOf(item: Item): (s: EmiStack)
    ensures s.item == item && s.amount == 1 && s.enchantments == []
  {
    EmiStack(item, 1, [])
  }

  /** A mutable item stack; `AddEnchantment` appends one entry to its enchantment list. */
  class ItemStack {
    const item: Item
    var enchantments: seq<AppliedEnchantment>

    constructor (item: Item)
      ensures this.item == item && enchantments == []
    {
      this.item := item;
      enchantments := [];
    }

    method AddEnchantment(e: Enchantment, level: int)
      modifies this
      ensures enchantments == old(enchantments) + [AppliedEnchantment(e, level)]
    {
      enchantments := enchantments + [AppliedEnchantment(e, level)];
    }
  }

  // ---------------------------------------------------------------------------
  // Helpers on sequences
  // ---------------------------------------------------------------------------

  function Max(a: int, b: int): (m: int)
    ensures m >= a && m >= b && (m == a || m == b)
  {
    if a < b then b else a
  }

  /** The elements of `xs` that satisfy `keep`, in their original order. */
  function Filter(xs: seq<Enchantment>, keep: Enchantment -> bool): (r: seq<Enchantment>)
    ensures |r| <= |xs|
    ensures forall x :: x in r <==> x in xs && keep(x)
  {
    if xs == [] then []
    else
      var rest := Filter(xs[1..], keep);
      assert forall x :: x in xs <==> x == xs[0] || x in xs[1..];
      if keep(xs[0]) then [xs[0]] + rest else rest
  }

  lemma {:induction false} FilterAppend(xs: seq<Enchantment>, x: Enchantment, keep: Enchantment -> bool)
    ensures Filter(xs + [x], keep) == Filter(xs, keep) + (if keep(x) then [x] else [])
  {
    if xs == [] {
      assert xs + [x] == [x];
    } else {
      assert (xs + [x])[1..] == xs[1..] + [x];
      FilterAppend(xs[1..], x, keep);
    }
  }

  /** Every element of `xs` is kept: filtering changes nothing. */
  lemma {:induction false} FilterAll(xs: seq<Enchantment>, keep: Enchantment -> bool)
    requires forall x :: x in xs ==> keep(x)
    ensures Filter(xs, keep) == xs
  {
    if xs != [] {
      assert forall x :: x in xs[1..] ==> x in xs;
      FilterAll(xs[1..], keep);
    }
  }

  /** No element of `xs` is kept: filtering leaves nothing. */
  lemma {:induction false} FilterNone(xs: seq<Enchantment>, keep: Enchantment -> bool)
    requires forall x :: x in xs ==> !keep(x)
    ensures Filter(xs, keep) == []
  {
    if xs != [] {
      assert forall x :: x in xs[1..] ==> x in xs;
      FilterNone(xs[1..], keep);
    }
  }

  /** Filtering depends only on which elements are kept. */
  lemma {:induction false} FilterSame(xs: seq<Enchantment>, keep: Enchantment -> bool, keep': Enchantment -> bool)
    requires forall x :: keep(x) == keep'(x)
    ensures Filter(xs, keep) == Filter(xs, keep')
  {
    if xs != [] {
      FilterSame(xs[1..], keep, keep');
    }
  }

  /** The enchantments recorded in an applied list, in order. */
  function Kinds(applied: seq<AppliedEnchantment>): (r: seq<Enchantment>)
    ensures |r| == |applied|
    ensures forall i :: 0 <= i < |applied| ==> r[i] == applied[i].enchantment
  {
    seq(|applied|, i requires 0 <= i < |applied| => applied[i].enchantment)
  }

  // ---------------------------------------------------------------------------
  // The specification of one roll
  // ---------------------------------------------------------------------------

  /** The candidate pool: the registry entries acceptable for `tool`, in registry order. */
  function Pool(reg: Registry, tool: Item): (pool: seq<Enchantment>)
    ensures |pool| <= |reg.entries|
    ensures forall e :: e in pool <==> e in reg.entries && reg.isAcceptableItem(e, tool)
  {
    Filter(reg.entries, e => reg.isAcceptableItem(e, tool))
  }

  /** How many picks a roll makes, from the two draws at `pos` and `pos + 1`. */
  function RollCount(stream: nat -> int, pos: nat): (n: nat)
    ensures 1 <= n <= 5
    ensures n == 1 + Max(Draw(stream(pos), 5), Draw(stream(pos + 1), 3))
  {
    1 + Max(Draw(stream(pos), 5), Draw(stream(pos + 1), 3))
  }

  /** The level before clamping; the draw at `pos` is used only when `maxLevel > 0`. */
  function RawLevel(e: Enchantment, stream: nat -> int, pos: nat): (raw: int)
    ensures e.maxLevel > 0 ==> 1 <= raw <= e.maxLevel
    ensures e.maxLevel <= 0 ==> raw == 0
  {
    if e.maxLevel > 0 then Draw(stream(pos), e.maxLevel) + 1 else 0
  }

  /** A level raised to the enchantment's minimum when it falls below it. */
  function Clamp(raw: int, e: Enchantment): (lvl: int)
    ensures lvl >= e.minLevel && lvl >= raw
    ensures lvl == raw || lvl == e.minLevel
  {
    if raw < e.minLevel then e.minLevel else raw
  }

  /** One iteration's pick: the enchantment, its final level and the next unused draw. */
  datatype Pick = Pick(enchantment: Enchantment, level: int, next: nat)

  function PickAt(pool: seq<Enchantment>, stream: nat -> int, pos: nat): (p: Pick)
    requires |pool| > 0
    ensures p.enchantment == pool[Draw(stream(pos), |pool|)]
    ensures p.next == pos + (if p.enchantment.maxLevel > 0 then 2 else 1)
    ensures p.level == Max(RawLevel(p.enchantment, stream, pos + 1), p.enchantment.minLevel)
  {
    var e := pool[Draw(stream(pos), |pool|)];
    Pick(e, Clamp(RawLevel(e, stream, pos + 1), e), if e.maxLevel > 0 then pos + 2 else pos + 1)
  }

  /** A pick is refused when some accepted `a` equals it or `!a.canCombine(it)`. */
  predicate Conflicts(accepted: seq<Enchantment>, e: Enchantment, canCombine: (Enchantment, Enchantment) -> bool)
  {
    exists k :: 0 <= k < |accepted| && (accepted[k] == e || !canCombine(accepted[k], e))
  }

  /** Whether an accepted enchantment is added to the stack. */
  predicate Shown(e: Enchantment, enchanted: bool)
  {
    e.cursed || enchanted
  }

  /** The state between iterations: draws used, accepted list, enchantments applied. */
  datatype RollState = RollState(pos: nat, accepted: seq<Enchantment>, applied: seq<AppliedEnchantment>)

  function Step(pool: seq<Enchantment>, canCombine: (Enchantment, Enchantment) -> bool,
                stream: nat -> int, enchanted: bool, s: RollState): (t: RollState)
    requires |pool| > 0
  {
    var p := PickAt(pool, stream, s.pos);
    if Conflicts(s.accepted, p.enchantment, canCombine) then
      s.(pos := p.next)
    else
      RollState(p.next, s.accepted + [p.enchantment],
                if Shown(p.enchantment, enchanted)
                then s.applied + [AppliedEnchantment(p.enchantment, p.level)]
                else s.applied)
  }

  /** An iteration whose pick conflicts only advances past the draws it used. */
  lemma StepRefused(pool: seq<Enchantment>, canCombine: (Enchantment, Enchantment) -> bool,
                    stream: nat -> int, enchanted: bool, s: RollState, k: nat)
    requires |pool| > 0
    requires var e := PickAt(pool, stream, s.pos).enchantment;
      k < |s.accepted| && (s.accepted[k] == e || !canCombine(s.accepted[k], e))
    ensures Step(pool, canCombine, stream, enchanted, s) == s.(pos := PickAt(pool, stream, s.pos).next)
  {
  }

  /** An iteration whose pick conflicts with nothing accepts it, and applies it when shown. */
  lemma StepAccepted(pool: seq<Enchantment>, canCombine: (Enchantment, Enchantment) -> bool,
                     stream: nat -> int, enchanted: bool, s: RollState)
    requires |pool| > 0
    requires var e := PickAt(pool, stream, s.pos).enchantment;
      forall k :: 0 <= k < |s.accepted| ==> !(s.accepted[k] == e || !canCombine(s.accepted[k], e))
    ensures var p := PickAt(pool, stream, s.pos);
      Step(pool, canCombine, stream, enchanted, s)
      == RollState(p.next, s.accepted + [p.enchantment],
                   if Shown(p.enchantment, enchanted) then s.applied + [AppliedEnchantment(p.enchantment, p.level)] else s.applied)
  {
  }

  /** `n` iterations of the loop from state `s`. */
  function Iterate(pool: seq<Enchantment>, canCombine: (Enchantment, Enchantment) -> bool,
                   stream: nat -> int, enchanted: bool, n: nat, s: RollState): (t: RollState)
    requires |pool| > 0
  {
    if n == 0 then s else Step(pool, canCombine, stream, enchanted, Iterate(pool, canCombine, stream, enchanted, n - 1, s))
  }

  /** The whole roll for `tool`, starting at draw `start`. */
  function Roll(reg: Registry, tool: Item, stream: nat -> int, start: nat, enchanted: bool): (r: RollState)
    requires |Pool(reg, tool)| > 0
  {
    Iterate(Pool(reg, tool), reg.canCombine, stream, enchanted,
            RollCount(stream, start), RollState(start + 2, [], []))
  }

  // ---------------------------------------------------------------------------
  // What a roll guarantees
  // ---------------------------------------------------------------------------

  /** No kind twice, and each earlier entry can combine with each later one (that direction only). */
  ghost predicate Compatible(accepted: seq<Enchantment>, canCombine: (Enchantment, Enchantment) -> bool)
  {
    forall i, j :: 0 <= i < j < |accepted| ==> accepted[i] != accepted[j] && canCombine(accepted[i], accepted[j])
  }

  /** A level the clamping rule can produce for `e`. */
  ghost predicate LegalLevel(e: Enchantment, level: int)
  {
    level >= e.minLevel &&
    (level == e.minLevel || (if e.maxLevel > 0 then 1 <= level <= e.maxLevel else level == 0))
  }

  ghost predicate Consistent(pool: seq<Enchantment>, canCombine: (Enchantment, Enchantment) -> bool,
                             enchanted: bool, s: RollState)
  {
    && (forall e :: e in s.accepted ==> e in pool)
    && Compatible(s.accepted, canCombine)
    && Kinds(s.applied) == Filter(s.accepted, e => Shown(e, enchanted))
    && (forall a :: a in s.applied ==> LegalLevel(a.enchantment, a.level))
  }

  /** Accepting an enchantment that conflicts with none accepted so far keeps the list compatible. */
  lemma CompatibleAppend(accepted: seq<Enchantment>, e: Enchantment, canCombine: (Enchantment, Enchantment) -> bool)
    requires Compatible(accepted, canCombine)
    requires !Conflicts(accepted, e, canCombine)
    ensures Compatible(accepted + [e], canCombine)
  {
    var acc := accepted + [e];
    forall i, j | 0 <= i < j < |acc|
      ensures acc[i] != acc[j] && canCombine(acc[i], acc[j])
    {
      if j == |accepted| {
        assert !(acc[i] == e || !canCombine(acc[i], e));
      }
    }
  }

  /** One iteration uses one or two draws and only ever extends the accepted and applied lists. */
  lemma StepBounds(pool: seq<Enchantment>, canCombine: (Enchantment, Enchantment) -> bool,
                   stream: nat -> int, enchanted: bool, s: RollState)
    requires |pool| > 0
    ensures var t := Step(pool, canCombine, stream, enchanted, s);
      && s.pos + 1 <= t.pos <= s.pos + 2
      && s.accepted <= t.accepted && |t.accepted| <= |s.accepted| + 1
      && s.applied <= t.applied
  {
  }

  /** Accepting a pool entry that conflicts with nothing accepted, at a legal level, keeps the roll consistent. */
  lemma AcceptKeepsConsistent(pool: seq<Enchantment>, canCombine: (Enchantment, Enchantment) -> bool,
                              enchanted: bool, s: RollState, e: Enchantment, level: int, next: nat)
    requires Consistent(pool, canCombine, enchanted, s)
    requires e in pool && LegalLevel(e, level) && !Conflicts(s.accepted, e, canCombine)
    ensures Consistent(pool, canCombine, enchanted,
                       RollState(next, s.accepted + [e],
                                 if Shown(e, enchanted) then s.applied + [AppliedEnchantment(e, level)] else s.applied))
  {
    CompatibleAppend(s.accepted, e, canCombine);
    FilterAppend(s.accepted, e, e => Shown(e, enchanted));
    if Shown(e, enchanted) {
      var a := AppliedEnchantment(e, level);
      assert Kinds(s.applied + [a]) == Kinds(s.applied) + [e];
    }
  }

  /** One iteration keeps the roll consistent, whether or not it accepts. */
  lemma StepKeepsConsistent(pool: seq<Enchantment>, canCombine: (Enchantment, Enchantment) -> bool,
                            stream: nat -> int, enchanted: bool, s: RollState)
    requires |pool| > 0
    requires Consistent(pool, canCombine, enchanted, s)
    ensures Consistent(pool, canCombine, enchanted, Step(pool, canCombine, stream, enchanted, s))
  {
    var p := PickAt(pool, stream, s.pos);
    if !Conflicts(s.accepted, p.enchantment, canCombine) {
      assert LegalLevel(p.enchantment, p.level);
      AcceptKeepsConsistent(pool, canCombine, enchanted, s, p.enchantment, p.level, p.next);
    }
  }

  /** `n` iterations use between `n` and `2 * n` draws and only ever extend the two lists. */
  lemma {:induction false} IterateBounds(pool: seq<Enchantment>, canCombine: (Enchantment, Enchantment) -> bool,
                                         stream: nat -> int, enchanted: bool, n: nat, s: RollState)
    requires |pool| > 0
    ensures var t := Iterate(pool, canCombine, stream, enchanted, n, s);
      && s.pos + n <= t.pos <= s.pos + 2 * n
      && s.accepted <= t.accepted && |t.accepted| <= |s.accepted| + n
      && s.applied <= t.applied
  {
    if n > 0 {
      var u := Iterate(pool, canCombine, stream, enchanted, n - 1, s);
      IterateBounds(pool, canCombine, stream, enchanted, n - 1, s);
      StepBounds(pool, canCombine, stream, enchanted, u);
    }
  }

  /** Every state a roll passes through is consistent. */
  lemma {:induction false} IterateKeepsConsistent(pool: seq<Enchantment>, canCombine: (Enchantment, Enchantment) -> bool,
                                                  stream: nat -> int, enchanted: bool, n: nat, s: RollState)
    requires |pool| > 0
    requires Consistent(pool, canCombine, enchanted, s)
    ensures Consistent(pool, canCombine, enchanted, Iterate(pool, canCombine, stream, enchanted, n, s))
  {
    if n > 0 {
      IterateKeepsConsistent(pool, canCombine, stream, enchanted, n - 1, s);
      StepKeepsConsistent(pool, canCombine, stream, enchanted, Iterate(pool, canCombine, stream, enchanted, n - 1, s));
    }
  }

  /**
   * The draws a roll consumes do not depend on what was accepted before: a
   * refused pick uses the same draws an accepted one would.
   */
  lemma {:induction false} DrawsIndependentOfAcceptance(pool: seq<Enchantment>, canCombine: (Enchantment, Enchantment) -> bool,
                                                        stream: nat -> int, enchanted: bool, n: nat, s: RollState, s': RollState)
    requires |pool| > 0
    requires s.pos == s'.pos
    ensures Iterate(pool, canCombine, stream, enchanted, n, s).pos == Iterate(pool, canCombine, stream, enchanted, n, s').pos
  {
    if n > 0 {
      DrawsIndependentOfAcceptance(pool, canCombine, stream, enchanted, n - 1, s, s');
    }
  }

  /** The applied entries whose enchantment is a curse, levels included, in order. */
  function Curses(applied: seq<AppliedEnchantment>): (r: seq<AppliedEnchantment>)
    ensures |r| <= |applied|
    ensures forall a :: a in r <==> a in applied && a.enchantment.cursed
  {
    if applied == [] then []
    else
      var init := applied[..|applied| - 1];
      var last := applied[|applied| - 1];
      assert applied == init + [last];
      Curses(init) + (if last.enchantment.cursed then [last] else [])
  }

  lemma CursesAppend(applied: seq<AppliedEnchantment>, a: AppliedEnchantment)
    ensures Curses(applied + [a]) == Curses(applied) + (if a.enchantment.cursed then [a] else [])
  {
    assert (applied + [a])[..|applied|] == applied;
  }

  /** One step of the plain and of the enchanted variant from matching states ends in matching states. */
  lemma StepIgnoresFlag(pool: seq<Enchantment>, canCombine: (Enchantment, Enchantment) -> bool,
                        stream: nat -> int, s: RollState, s': RollState)
    requires |pool| > 0
    requires s.pos == s'.pos && s.accepted == s'.accepted && s.applied == Curses(s'.applied)
    ensures var t := Step(pool, canCombine, stream, false, s);
      var t' := Step(pool, canCombine, stream, true, s');
      t.pos == t'.pos && t.accepted == t'.accepted && t.applied == Curses(t'.applied)
  {
    var p := PickAt(pool, stream, s.pos);
    CursesAppend(s'.applied, AppliedEnchantment(p.enchantment, p.level));
  }

  /**
   * The flag decides only what is applied: the picks, the accepted list and
   * the draws used are the same, and the plain variant applies exactly the
   * curse entries of the enchanted one, with the same levels.
   */
  lemma {:induction false} IterateIgnoresFlag(pool: seq<Enchantment>, canCombine: (Enchantment, Enchantment) -> bool,
                                              stream: nat -> int, n: nat, s: RollState, s': RollState)
    requires |pool| > 0
    requires s.pos == s'.pos && s.accepted == s'.accepted && s.applied == Curses(s'.applied)
    ensures var t := Iterate(pool, canCombine, stream, false, n, s);
      var t' := Iterate(pool, canCombine, stream, true, n, s');
      t.pos == t'.pos && t.accepted == t'.accepted && t.applied == Curses(t'.applied)
  {
    if n > 0 {
      IterateIgnoresFlag(pool, canCombine, stream, n - 1, s, s');
      StepIgnoresFlag(pool, canCombine, stream,
                      Iterate(pool, canCombine, stream, false, n - 1, s),
                      Iterate(pool, canCombine, stream, true, n - 1, s'));
    }
  }

  /**
   * The plain and the enchanted variant rolled from the same draws accept the
   * same enchantments; the plain stack carries exactly the curse entries of
   * the enchanted stack, with the same levels and in the same order.
   */
  lemma PlainVariantIsCursesOfEnchanted(reg: Registry, tool: Item, stream: nat -> int, start: nat)
    requires |Pool(reg, tool)| > 0
    ensures var plain := Roll(reg, tool, stream, start, false);
      var full := Roll(reg, tool, stream, start, true);
      && plain.pos == full.pos && plain.accepted == full.accepted
      && plain.applied == Curses(full.applied)
      && Kinds(plain.applied) == Filter(full.accepted, (e: Enchantment) => e.cursed)
  {
    var pool := Pool(reg, tool);
    var s0 := RollState(start + 2, [], []);
    var n := RollCount(stream, start);
    IterateIgnoresFlag(pool, reg.canCombine, stream, n, s0, s0);
    assert Kinds([]) == [];
    IterateKeepsConsistent(pool, reg.canCombine, stream, false, n, s0);
    var plain := Iterate(pool, reg.canCombine, stream, false, n, s0);
    FilterSame(plain.accepted, e => Shown(e, false), (e: Enchantment) => e.cursed);
  }

  /** Everything a roll guarantees about its result. */
  lemma RollGuarantees(reg: Registry, tool: Item, stream: nat -> int, start: nat, enchanted: bool)
    requires |Pool(reg, tool)| > 0
    ensures var r := Roll(reg, tool, stream, start, enchanted);
      var n := RollCount(stream, start);
      // the loop runs exactly n times, each using one or two draws, after the two count draws
      && start + 2 + n <= r.pos <= start + 2 + 2 * n
      // every pick comes from the acceptable registry entries
      && (forall e :: e in r.accepted ==> e in reg.entries && reg.isAcceptableItem(e, tool))
      // no kind twice; each earlier entry combines with each later one
      && Compatible(r.accepted, reg.canCombine)
      // at most one accepted enchantment per iteration, at most one applied per accepted
      && |r.applied| <= |r.accepted| <= n
      // the applied enchantments are exactly the accepted ones that are shown, in order
      && Kinds(r.applied) == Filter(r.accepted, e => Shown(e, enchanted))
      && (forall a :: a in r.applied ==> a.enchantment in r.accepted && LegalLevel(a.enchantment, a.level))
      // without the flag only curses are applied; with it every accepted enchantment is
      && (!enchanted ==> forall a :: a in r.applied ==> a.enchantment.cursed)
      && (enchanted ==> Kinds(r.applied) == r.accepted)
  {
    var pool := Pool(reg, tool);
    var r := Roll(reg, tool, stream, start, enchanted);
    var keep := e => Shown(e, enchanted);
    assert Kinds([]) == [];
    IterateKeepsConsistent(pool, reg.canCombine, stream, enchanted, RollCount(stream, start), RollState(start + 2, [], []));
    IterateBounds(pool, reg.canCombine, stream, enchanted, RollCount(stream, start), RollState(start + 2, [], []));
    forall a | a in r.applied
      ensures a.enchantment in r.accepted && (!enchanted ==> a.enchantment.cursed)
    {
      var i :| 0 <= i < |r.applied| && r.applied[i] == a;
      assert Kinds(r.applied)[i] == a.enchantment;
      assert a.enchantment in Filter(r.accepted, keep);
    }
    if enchanted {
      FilterAll(r.accepted, keep);
    }
  }

  /** The bare tool: no enchantment is applied when the roll accepts nothing shown. */
  lemma NothingShownMeansBareTool(reg: Registry, tool: Item, stream: nat -> int, start: nat)
    requires |Pool(reg, tool)| > 0
    requires forall e :: e in Pool(reg, tool) ==> !e.cursed
    ensures Roll(reg, tool, stream, start, false).applied == []
  {
    var r := Roll(reg, tool, stream, start, false);
    RollGuarantees(reg, tool, stream, start, false);
    FilterNone(r.accepted, e => Shown(e, false));
  }

  // A worked roll over three enchantments where efficiency and unbreaking
  // cannot combine.

  const Efficiency := Enchantment("efficiency", 1, 5, false)
  const Unbreaking := Enchantment("unbreaking", 1, 3, false)
  const Vanishing := Enchantment("vanishing_curse", 1, 1, true)
  const ExamplePool := [Efficiency, Unbreaking, Vanishing]
  const ExampleDraws := [2, 1, 0, 1, 1, 0, 2, 0]

  function ExampleCombine(a: Enchantment, b: Enchantment): (ok: bool)
  {
    !(a == Efficiency && b == Unbreaking) && !(a == Unbreaking && b == Efficiency)
  }

  function ExampleStream(k: nat): (d: int)
  {
    if k < |ExampleDraws| then ExampleDraws[k] else 0
  }

  function ExampleAcceptable(e: Enchantment, item: Item): (ok: bool)
  {
    true
  }

  function ExampleRegistry(): (reg: Registry)
  {
    Registry(ExamplePool, ExampleAcceptable, ExampleCombine)
  }

  lemma ExamplePoolIsRegistry(tool: Item)
    ensures Pool(ExampleRegistry(), tool) == ExamplePool
  {
    var reg := ExampleRegistry();
    var keep := e => reg.isAcceptableItem(e, tool);
    forall x | x in ExamplePool
      ensures keep(x)
    {
      assert reg.isAcceptableItem(x, tool) == ExampleAcceptable(x, tool);
    }
    FilterAll(ExamplePool, keep);
  }

  function ExampleShown(enchanted: bool): (applied: seq<AppliedEnchantment>)
  {
    if enchanted then [AppliedEnchantment(Efficiency, 2)] else []
  }

  lemma ExampleFirstPick(enchanted: bool)
    ensures Step(ExamplePool, ExampleCombine, ExampleStream, enchanted, RollState(2, [], []))
      == RollState(4, [Efficiency], ExampleShown(enchanted))
  {
    assert PickAt(ExamplePool, ExampleStream, 2) == Pick(Efficiency, 2, 4);
  }

  lemma ExampleSecondPick(enchanted: bool)
    ensures Step(ExamplePool, ExampleCombine, ExampleStream, enchanted, RollState(4, [Efficiency], ExampleShown(enchanted)))
      == RollState(6, [Efficiency], ExampleShown(enchanted))
  {
    assert PickAt(ExamplePool, ExampleStream, 4) == Pick(Unbreaking, 1, 6);
    assert [Efficiency][0] == Efficiency && !ExampleCombine(Efficiency, Unbreaking);
  }

  lemma ExampleThirdPick(enchanted: bool)
    ensures Step(ExamplePool, ExampleCombine, ExampleStream, enchanted, RollState(6, [Efficiency], ExampleShown(enchanted)))
      == RollState(8, [Efficiency, Vanishing], ExampleShown(enchanted) + [AppliedEnchantment(Vanishing, 1)])
  {
    assert PickAt(ExamplePool, ExampleStream, 6) == Pick(Vanishing, 1, 8);
    assert ExampleCombine(Efficiency, Vanishing);
  }

  /**
   * The draws give three picks: efficiency at level 2, then unbreaking, which
   * is refused, then the curse. The curse is shown on both variants and
   * efficiency only on the enchanted one.
   */
  lemma ExampleRoll(tool: Item, enchanted: bool)
    ensures |Pool(ExampleRegistry(), tool)| > 0
    ensures Roll(ExampleRegistry(), tool, ExampleStream, 0, enchanted)
      == RollState(8, [Efficiency, Vanishing], ExampleShown(enchanted) + [AppliedEnchantment(Vanishing, 1)])
  {
    ExamplePoolIsRegistry(tool);
    assert RollCount(ExampleStream, 0) == 3;
    ExampleFirstPick(enchanted);
    ExampleSecondPick(enchanted);
    ExampleThirdPick(enchanted);
    var s0 := RollState(2, [], []);
    assert Iterate(ExamplePool, ExampleCombine, ExampleStream, enchanted, 1, s0) == RollState(4, [Efficiency], ExampleShown(enchanted));
    assert Iterate(ExamplePool, ExampleCombine, ExampleStream, enchanted, 2, s0) == RollState(6, [Efficiency], ExampleShown(enchanted));
    assert ExampleRegistry().canCombine == ExampleCombine;
  }

  // ---------------------------------------------------------------------------
  // The recipe
  // ---------------------------------------------------------------------------

  datatype Identifier = Identifier(namespace: string, path: string)

  class GrindstoneDisenchantingRecipe {
    const tool: Item

    constructor (tool: Item)
      ensures this.tool == tool
    {
      this.tool := tool;
    }

    /** The recipe has no identifier. */
    function GetId(): (id: Option<Identifier>)
      ensures id == None
    {
      None
    }

    /** The one input is a single bare `tool`. */
    function GetInputs(): (inputs: seq<EmiStack>)
      ensures |inputs| == 1 && inputs[0] == StackOf(tool)
    {
      [StackOf(tool)]
    }

    /** The one output is a single bare `tool`, the same stack as the input. */
    function GetOutputs(): (outputs: seq<EmiStack>)
      ensures |outputs| == 1 && outputs[0] == StackOf(tool)
      ensures outputs == GetInputs()
    {
      [StackOf(tool)]
    }

    function SupportsRecipeTree(): (b: bool)
      ensures !b
    {
      false
    }

    /** One pick from the pool; the host throws when the pool is empty. */
    method GetEnchantment(reg: Registry, random: Random) returns (e: Enchantment)
      requires |Pool(reg, tool)| > 0
      modifies random
      ensures random.pos == old(random.pos) + 1
      ensures e == Pool(reg, tool)[Draw(random.stream(old(random.pos)), |Pool(reg, tool)|)]
    {
      var enchantments := Pool(reg, tool);
      var index := random.NextInt(|enchantments|);
      e := enchantments[index];
    }

    /** The level roll inside `getTool`: one draw below the maximum level, raised to the minimum. */
    method RollLevel(random: Random, enchantment: Enchantment) returns (lvl: int)
      modifies random
      ensures random.pos == old(random.pos) + (if enchantment.maxLevel > 0 then 1 else 0)
      ensures lvl == Clamp(RawLevel(enchantment, random.stream, old(random.pos)), enchantment)
    {
      var maxLvl := enchantment.maxLevel;
      var minLvl := enchantment.minLevel;
      lvl := 0;
      if maxLvl > 0 {
        var d := random.NextInt(maxLvl);
        lvl := d + 1;
      }
      if lvl < minLvl {
        lvl := minLvl;
      }
    }

    /** The outer loop of `getTool`: `n` attempts, each kept or refused as `Step` says. */
    method AttemptAll(reg: Registry, random: Random, itemStack: ItemStack, n: nat, enchanted: bool)
      returns (list: seq<Enchantment>)
      requires |Pool(reg, tool)| > 0
      modifies random, itemStack
      ensures RollState(random.pos, list, itemStack.enchantments)
        == Iterate(Pool(reg, tool), reg.canCombine, random.stream, enchanted, n,
                   RollState(old(random.pos), [], old(itemStack.enchantments)))
    {
      ghost var pool := Pool(reg, tool);
      ghost var initial := RollState(random.pos, [], itemStack.enchantments);
      list := [];
      label outer:
      for i := 0 to n
        invariant RollState(random.pos, list, itemStack.enchantments)
          == Iterate(pool, reg.canCombine, random.stream, enchanted, i, initial)
      {
        ghost var before := RollState(random.pos, list, itemStack.enchantments);
        ghost var p := PickAt(pool, random.stream, random.pos);
        var enchantment := GetEnchantment(reg, random);

        var lvl := RollLevel(random, enchantment);
        assert enchantment == p.enchantment && lvl == p.level && random.pos == p.next;

        var j := 0;
        while j < |list|
          invariant 0 <= j <= |list|
          invariant forall k :: 0 <= k < j ==> !(list[k] == enchantment || !reg.canCombine(list[k], enchantment))
        {
          var e := list[j];
          if e == enchantment || !reg.canCombine(e, enchantment) {
            StepRefused(pool, reg.canCombine, random.stream, enchanted, before, j);
            continue outer;
          }
          j := j + 1;
        }
        StepAccepted(pool, reg.canCombine, random.stream, enchanted, before);
        list := list + [enchantment];

        if enchantment.cursed {
          itemStack.AddEnchantment(enchantment, lvl);
        } else if enchanted {
          itemStack.AddEnchantment(enchantment, lvl);
        }
      }
    }

    /** Rolls a tool; the result carries exactly the enchantments Roll applies. */
    method GetTool(reg: Registry, random: Random, enchanted: bool) returns (result: EmiStack)
      requires |Pool(reg, tool)| > 0
      modifies random
      ensures var r := Roll(reg, tool, random.stream, old(random.pos), enchanted);
        random.pos == r.pos && result == EmiStack(tool, 1, r.applied)
    {
      var itemStack := new ItemStack(tool);
      var first := random.NextInt(5);
      var second := random.NextInt(3);
      var enchantments := 1 + Max(first, second);
      var list := AttemptAll(reg, random, itemStack, enchantments, enchanted);
      result := EmiStack(itemStack.item, 1, itemStack.enchantments);
    }
  }
}
