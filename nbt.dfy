/** The engine's named-binary-tag values, reduced to what the capability storages use. */
module Nbt {

  datatype Tag =
    | Compound(entries: map<string, Tag>)
    | ByteTag(b: int)
    | IntTag(i: int)
    | StringTag(s: string)
    | ListTag(items: seq<Tag>)

  /** CompoundNBT.putBoolean stores a byte 1 or 0. */
  function BoolByte(b: bool): Tag {
    ByteTag(if b then 1 else 0)
  }

  /**
   * CompoundNBT.getBoolean: getByte(key) != 0, where a numeric entry is narrowed to its low
   * byte and anything else reads as 0.
   */
  function GetBoolean(entries: map<string, Tag>, key: string): bool {
    key in entries &&
    match entries[key]
    case ByteTag(b) => b % 256 != 0
    case IntTag(i) => i % 256 != 0
    case _ => false
  }

  /** CompoundNBT.getCompound: the entry if it is a compound, an empty compound otherwise. */
  function GetCompound(entries: map<string, Tag>, key: string): (r: map<string, Tag>)
    ensures key in entries && entries[key].Compound? ==> r == entries[key].entries
    ensures !(key in entries && entries[key].Compound?) ==> r == map[]
  {
    if key in entries && entries[key].Compound? then entries[key].entries else map[]
  }
}
