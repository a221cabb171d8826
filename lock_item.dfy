/** LockItem: a lock with a category, a rarity, a craftable flag and the keys that open it. */
module LockItems {
  import opened Enums

  /** A key item; keys are compared by identity. */
  class KeyItem {
    const name: string

    constructor (name: string)
      ensures this.name == name
    {
      this.name := name;
    }
  }

  class LockItem {
    const name: string
    var category: Category
    var rarity: Rarity
    var craftable: bool
    var keys: seq<KeyItem>

    /** The plain constructor: BASIC, COMMON, not craftable, no keys. */
    constructor (name: string)
      ensures this.name == name
      ensures category == Basic && rarity == Common && !craftable && keys == []
    {
      this.name := name;
      keys := [];
      category := Basic;
      rarity := Common;
      craftable := false;
    }

    /** The keyed constructor: the plain defaults, then the given keys appended in order. */
    constructor WithKeys(name: string, keys: seq<KeyItem>)
      ensures this.name == name
      ensures category == Basic && rarity == Common && !craftable && this.keys == keys
    {
      this.name := name;
      this.keys := [];
      category := Basic;
      rarity := Common;
      craftable := false;
      new;
      this.keys := this.keys + keys;
    }

    /** acceptsKey: true exactly when this very key object is among the lock's keys. */
    method AcceptsKey(keyItem: KeyItem) returns (accepts: bool)
      ensures accepts <==> keyItem in keys
    {
      var i := 0;
      while i < |keys|
        invariant 0 <= i <= |keys|
        invariant keyItem !in keys[..i]
      {
        if keys[i] == keyItem {
          return true;
        }
        i := i + 1;
      }
      return false;
    }

    /** setRarity: changes the rarity only and returns this lock. */
    method SetRarity(rarity: Rarity) returns (self: LockItem)
      modifies this
      ensures self == this && this.rarity == rarity
      ensures category == old(category) && craftable == old(craftable) && keys == old(keys)
    {
      this.rarity := rarity;
      return this;
    }

    /** setCraftable: changes the craftable flag only and returns this lock. */
    method SetCraftable(craftable: bool) returns (self: LockItem)
      modifies this
      ensures self == this && this.craftable == craftable
      ensures category == old(category) && rarity == old(rarity) && keys == old(keys)
    {
      this.craftable := craftable;
      return this;
    }

    /** setKeys: replaces the key list only and returns this lock. */
    method SetKeys(keys: seq<KeyItem>) returns (self: LockItem)
      modifies this
      ensures self == this && this.keys == keys
      ensures category == old(category) && rarity == old(rarity) && craftable == old(craftable)
    {
      this.keys := keys;
      return this;
    }

    /** setCategory: changes the category only and returns this lock. */
    method SetCategory(category: Category) returns (self: LockItem)
      modifies this
      ensures self == this && this.category == category
      ensures rarity == old(rarity) && craftable == old(craftable) && keys == old(keys)
    {
      this.category := category;
      return this;
    }
  }
}
