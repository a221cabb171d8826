/** KeyRingCapabilityStorage: saves and restores a key ring's open flag as a compound tag. */
module KeyRingStorage {
  import opened Nbt
  import opened Wrappers

  const IsOpenTag: string := "isOpen"

  /** The key-ring capability: whether the ring is open. */
  class KeyRingCapability {
    var open: bool

    constructor (open: bool)
      ensures this.open == open
    {
      this.open := open;
    }
  }

  /** writeNBT: a fresh compound whose only entry is the open flag. */
  function WriteNbt(open: bool): (t: Tag)
    ensures t.Compound? && t.entries.Keys == {IsOpenTag}
    ensures GetBoolean(t.entries, IsOpenTag) == open
  {
    Compound(map[IsOpenTag := BoolByte(open)])
  }

  /** The flag readNBT stores: none unless the tag is a compound that holds the key. */
  function ReadValue(t: Tag): (r: Option<bool>)
    ensures r.Some? <==> t.Compound? && IsOpenTag in t.entries
  {
    if t.Compound? && IsOpenTag in t.entries then Some(GetBoolean(t.entries, IsOpenTag)) else None
  }

  /** Reading what was written gives back the written flag. */
  lemma ReadWrite(open: bool)
    ensures ReadValue(WriteNbt(open)) == Some(open)
  {
  }

  /** readNBT: sets the flag from the tag, or leaves the instance as it was. */
  method ReadNbt(instance: KeyRingCapability, t: Tag)
    modifies instance
    ensures ReadValue(t).Some? ==> instance.open == ReadValue(t).value
    ensures ReadValue(t).None? ==> instance.open == old(instance.open)
  {
    if t.Compound? {
      if IsOpenTag in t.entries {
        instance.open := GetBoolean(t.entries, IsOpenTag);
      }
    }
  }

  /** writeNBT then readNBT into any instance restores the written flag. */
  method RoundTrip(from: KeyRingCapability, into: KeyRingCapability)
    modifies into
    ensures into.open == old(from.open)
  {
    var t := WriteNbt(from.open);
    ReadNbt(into, t);
  }
}
