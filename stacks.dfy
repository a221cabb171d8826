/**
 * Item stacks as the anvil handler sees them: an item, an item damage, and the durability,
 * charmable and runestones capabilities attached to the stack. Capability internals that the
 * handler only calls (copyTo, transferTo, clear, Runestone.apply) are operations of an Engine.
 */
module Stacks {
  import opened Wrappers
  import opened Enums

  /** A charm held in a charm inventory. */
  datatype CharmEntity = CharmEntity(charm: string)

  /** A runestone held in a rune inventory, with its applied flag. */
  datatype RuneEntity = RuneEntity(runestone: string, applied: bool)

  /** The durability capability: durability, max durability, repairs and max repairs. */
  datatype DurabilityCap = DurabilityCap(durability: int, maxDurability: int, repairs: int, maxRepairs: int)

  /** The charmable capability: its flags, source item, base material, highest level and charm inventories. */
  datatype CharmableCap = CharmableCap(
    socketable: bool, bindable: bool, imbuable: bool, imbuing: bool,
    sourceItem: string, baseMaterial: string, highestLevel: int,
    charms: map<InventoryType, seq<CharmEntity>>)

  /** The runestones capability: its flags and rune inventories. */
  datatype RunestonesCap = RunestonesCap(socketable: bool, bindable: bool, runes: map<InventoryType, seq<RuneEntity>>)

  /** The capabilities a stack carries; None where hasCapability is false. */
  datatype Caps = Caps(durability: Option<DurabilityCap>, charmable: Option<CharmableCap>, runestones: Option<RunestonesCap>)

  /** The item classes the handler distinguishes with instanceof. */
  datatype ItemKind = KeyKind | AdornmentKind | OtherKind

  /** An item: registry name, class, max damage and the capabilities a new stack of it gets. */
  datatype Item = Item(id: string, kind: ItemKind, maxDamage: int, initial: Caps)

  datatype Stack = Stack(item: Item, damage: int, caps: Caps)

  /** Items.AIR.getRegistryName() */
  const Air: string := "minecraft:air"

  /** new ItemStack(item): no damage and the item's own fresh capabilities. */
  function NewStack(item: Item): (s: Stack)
    ensures s.item == item && s.damage == 0 && s.caps == item.initial
  {
    Stack(item, 0, item.initial)
  }

  /** ItemStack.setItemDamage: a negative damage is stored as 0. */
  function SetItemDamage(stack: Stack, damage: int): (s: Stack)
    ensures s.damage >= 0
    ensures damage >= 0 ==> s.damage == damage
    ensures s.item == stack.item && s.caps == stack.caps
  {
    stack.(damage := if damage < 0 then 0 else damage)
  }

  /** getCurrentSize(type) of a charm inventory. */
  function CharmSize(cap: CharmableCap, t: InventoryType): nat {
    if t in cap.charms then |cap.charms[t]| else 0
  }

  /** getCurrentSize(type) of a rune inventory. */
  function RuneSize(cap: RunestonesCap, t: InventoryType): nat {
    if t in cap.runes then |cap.runes[t]| else 0
  }

  /** getEntities(type) of a stack's rune inventory, empty without the capability. */
  function Runes(stack: Stack, t: InventoryType): seq<RuneEntity> {
    if stack.caps.runestones.Some? && t in stack.caps.runestones.value.runes then stack.caps.runestones.value.runes[t] else []
  }

  /** Two capability sets attach the same capabilities. */
  predicate SameCaps(a: Caps, b: Caps) {
    a.durability.Some? == b.durability.Some? &&
    a.charmable.Some? == b.charmable.Some? &&
    a.runestones.Some? == b.runestones.Some?
  }

  /** Adornment items attach all three capabilities (AdornmentCapabilityProvider). */
  predicate ItemWellFormed(item: Item) {
    item.kind == AdornmentKind ==>
      item.initial.durability.Some? && item.initial.charmable.Some? && item.initial.runestones.Some?
  }

  /** A stack carries the capabilities its item attaches, and no negative damage. */
  predicate WellFormed(stack: Stack) {
    stack.damage >= 0 && ItemWellFormed(stack.item) && SameCaps(stack.caps, stack.item.initial)
  }

  /**
   * The engine operations the handler calls but whose code is not part of this model. Each
   * "copyTo"/"transferTo" receives the source capability and the target's current one and
   * returns the target's new capability.
   */
  datatype Engine = Engine(
    durabilityCopyTo: (DurabilityCap, DurabilityCap) -> DurabilityCap,
    charmClear: CharmableCap -> CharmableCap,
    charmCopyTo: (CharmableCap, CharmableCap) -> CharmableCap,
    charmTransferTo: (CharmableCap, CharmableCap, InventoryType, InventoryType) -> CharmableCap,
    runeClear: RunestonesCap -> RunestonesCap,
    runeCopyTo: (RunestonesCap, RunestonesCap) -> RunestonesCap,
    runeTransferTo: (RunestonesCap, RunestonesCap, InventoryType, InventoryType) -> RunestonesCap,
    runeValid: (RuneEntity, Stack) -> bool,
    runeApply: (RuneEntity, Stack) -> Stack,
    isGemSource: string -> bool,
    adornmentFor: (Item, string, string) -> Option<Item>)

  /**
   * What the engine guarantees: Runestone.apply changes a stack's state but not its item or the
   * set of capabilities attached to it, and the adornment registry only holds adornment items.
   */
  ghost predicate ValidEngine(engine: Engine) {
    (forall e, s :: engine.runeApply(e, s).item == s.item && SameCaps(engine.runeApply(e, s).caps, s.caps)) &&
    (forall item, material, gem :: engine.adornmentFor(item, material, gem).Some? ==>
       engine.adornmentFor(item, material, gem).value.kind == AdornmentKind &&
       ItemWellFormed(engine.adornmentFor(item, material, gem).value))
  }

  /** An engine whose durability copyTo copies all four numbers. */
  ghost predicate CopiesDurability(engine: Engine) {
    forall from, to :: engine.durabilityCopyTo(from, to) == from
  }
}
