/** The mod's enumerations that more than one core class uses. */
module Enums {

  /** Item and runestone rarity (com.someguyssoftware.treasure2.enums.Rarity). */
  datatype Rarity = Common | Uncommon | Scarce | Rare | Epic | Legendary | Mythical

  /** Lock category; only BASIC is named by the modelled code. */
  datatype Category = Basic | OtherCategory(name: string)

  /** The inventories of a charm or runestone capability (capability.InventoryType). */
  datatype InventoryType = Innate | Imbue | Socket
}
