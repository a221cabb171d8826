/**
 * The item capabilities as the engine holds them: objects attached to an item stack whose fields
 * are updated in place. Only the state the modelled classes read or write is kept.
 */
module Capabilities {

  /** The durability numbers of a durability capability, as one value. */
  datatype DurabilityState = DurabilityState(durability: int, maxDurability: int)

  /** DurabilityCapability: current and maximum durability of a stack. */
  class DurabilityCapability {
    var durability: int
    var maxDurability: int

    /** new DurabilityCapability(durability, maxDurability) */
    constructor (durability: int, maxDurability: int)
      ensures this.durability == durability && this.maxDurability == maxDurability
    {
      this.durability := durability;
      this.maxDurability := maxDurability;
    }

    function Value(): DurabilityState
      reads this
    {
      DurabilityState(durability, maxDurability)
    }

    method SetValue(v: DurabilityState)
      modifies this
      ensures Value() == v
    {
      durability, maxDurability := v.durability, v.maxDurability;
    }
  }

  /**
   * The state of a charm or runestone capability: the three inventory limits it was built with
   * and its entities, which are not looked into here.
   */
  datatype InventoryState = InventoryState(maxInnate: int, maxImbue: int, maxSocket: int, entities: seq<string>)

  /** CharmableCapability */
  class CharmableCapability {
    var state: InventoryState

    /** new CharmableCapability(innate, imbue, socket): limits set, no entities. */
    constructor (innate: int, imbue: int, socket: int)
      ensures state == InventoryState(innate, imbue, socket, [])
    {
      state := InventoryState(innate, imbue, socket, []);
    }
  }

  /** RunestonesCapability */
  class RunestonesCapability {
    var state: InventoryState

    /** new RunestonesCapability(innate, imbue, socket): limits set, no entities. */
    constructor (innate: int, imbue: int, socket: int)
      ensures state == InventoryState(innate, imbue, socket, [])
    {
      state := InventoryState(innate, imbue, socket, []);
    }
  }

  /** An item stack seen through its durability capability; null when the stack has none. */
  class ItemStack {
    const durabilityCap: DurabilityCapability?

    constructor (cap: DurabilityCapability?)
      ensures durabilityCap == cap
    {
      durabilityCap := cap;
    }
  }
}
