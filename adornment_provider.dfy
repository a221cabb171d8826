/**
 * AdornmentCapabilityProvider: the provider attached to every adornment stack. It holds one
 * charmable, one runestones and one durability capability and (de)serialises all three.
 */
module AdornmentProvider {
  import opened Nbt
  import opened Capabilities

  /** The capability keys a provider can be asked about. */
  datatype CapabilityKey = Charmable | Runestones | Durability | OtherCapability(name: string)

  /** A capability handed out by getCapability; NoCapability stands for null. */
  datatype Held =
    | HeldCharmable(charmable: CharmableCapability)
    | HeldRunestones(runestones: RunestonesCapability)
    | HeldDurability(durability: DurabilityCapability)
    | NoCapability

  /**
   * The three capability storages (writeNBT / readNBT), which are not part of this model: each
   * writes a compound for a state and reads a compound into a state.
   */
  datatype Storages = Storages(
    writeCharmable: InventoryState -> map<string, Tag>,
    readCharmable: (InventoryState, map<string, Tag>) -> InventoryState,
    writeRunestones: InventoryState -> map<string, Tag>,
    readRunestones: (InventoryState, map<string, Tag>) -> InventoryState,
    writeDurability: DurabilityState -> map<string, Tag>,
    readDurability: (DurabilityState, map<string, Tag>) -> DurabilityState)

  const CharmableKey: string := "charmable"
  const RunestonesKey: string := "runestones"
  const DurabilityKey: string := "durability"

  class AdornmentCapabilityProvider {
    const charmableCap: CharmableCapability
    const durabilityCap: DurabilityCapability
    const runestonesCap: RunestonesCapability

    /** The default provider: durability (100, 100), empty (0, 0, 0) charm and runestone capabilities. */
    constructor ()
      ensures fresh(charmableCap) && fresh(durabilityCap) && fresh(runestonesCap)
      ensures charmableCap.state == InventoryState(0, 0, 0, [])
      ensures durabilityCap.Value() == DurabilityState(100, 100)
      ensures runestonesCap.state == InventoryState(0, 0, 0, [])
    {
      charmableCap := new CharmableCapability(0, 0, 0);
      durabilityCap := new DurabilityCapability(100, 100);
      runestonesCap := new RunestonesCapability(0, 0, 0);
    }

    /** The given charm capability with default durability and runestones. */
    constructor WithCharmable(charmableCap: CharmableCapability)
      ensures this.charmableCap == charmableCap
      ensures fresh(durabilityCap) && durabilityCap.Value() == DurabilityState(100, 100)
      ensures fresh(runestonesCap) && runestonesCap.state == InventoryState(0, 0, 0, [])
    {
      this.charmableCap := charmableCap;
      durabilityCap := new DurabilityCapability(100, 100);
      runestonesCap := new RunestonesCapability(0, 0, 0);
    }

    /** The given charm and durability capabilities with default runestones. */
    constructor WithDurability(charmableCap: CharmableCapability, durabilityCap: DurabilityCapability)
      ensures this.charmableCap == charmableCap && this.durabilityCap == durabilityCap
      ensures fresh(runestonesCap) && runestonesCap.state == InventoryState(0, 0, 0, [])
    {
      this.charmableCap := charmableCap;
      this.durabilityCap := durabilityCap;
      runestonesCap := new RunestonesCapability(0, 0, 0);
    }

    /** All three capabilities given. */
    constructor WithAll(charmableCap: CharmableCapability, runestonesCap: RunestonesCapability,
                        durabilityCap: DurabilityCapability)
      ensures this.charmableCap == charmableCap && this.runestonesCap == runestonesCap
      ensures this.durabilityCap == durabilityCap
    {
      this.charmableCap := charmableCap;
      this.runestonesCap := runestonesCap;
      this.durabilityCap := durabilityCap;
    }

    /** hasCapability: exactly the charmable, runestones and durability keys. */
    predicate HasCapability(key: CapabilityKey)
    {
      key == Charmable || key == Runestones || key == Durability
    }

    /** getCapability: the held capability of that kind, or null for any other key. */
    function GetCapability(key: CapabilityKey): (r: Held)
      ensures key == Charmable <==> r == HeldCharmable(charmableCap)
      ensures key == Runestones <==> r == HeldRunestones(runestonesCap)
      ensures key == Durability <==> r == HeldDurability(durabilityCap)
      ensures key.OtherCapability? <==> r == NoCapability
    {
      match key
      case Charmable => HeldCharmable(charmableCap)
      case Runestones => HeldRunestones(runestonesCap)
      case Durability => HeldDurability(durabilityCap)
      case OtherCapability(_) => NoCapability
    }

    /** The provider answers hasCapability exactly for the keys getCapability serves. */
    lemma HasIffServed(key: CapabilityKey)
      ensures HasCapability(key) <==> GetCapability(key) != NoCapability
    {
    }

    /** serializeNBT: one compound per capability under its own key, and nothing else. */
    function SerializeNbt(st: Storages): (t: map<string, Tag>)
      reads this, charmableCap, runestonesCap, durabilityCap
      ensures t.Keys == {CharmableKey, RunestonesKey, DurabilityKey}
      ensures t[CharmableKey] == Compound(st.writeCharmable(charmableCap.state))
      ensures t[RunestonesKey] == Compound(st.writeRunestones(runestonesCap.state))
      ensures t[DurabilityKey] == Compound(st.writeDurability(durabilityCap.Value()))
    {
      map[CharmableKey := Compound(st.writeCharmable(charmableCap.state)),
          RunestonesKey := Compound(st.writeRunestones(runestonesCap.state)),
          DurabilityKey := Compound(st.writeDurability(durabilityCap.Value()))]
    }

    /** deserializeNBT: each capability whose key is present is read from its compound; the others keep their state. */
    method DeserializeNbt(nbt: map<string, Tag>, st: Storages)
      modifies charmableCap, runestonesCap, durabilityCap
      ensures charmableCap.state ==
                if CharmableKey in nbt then st.readCharmable(old(charmableCap.state), GetCompound(nbt, CharmableKey))
                else old(charmableCap.state)
      ensures runestonesCap.state ==
                if RunestonesKey in nbt then st.readRunestones(old(runestonesCap.state), GetCompound(nbt, RunestonesKey))
                else old(runestonesCap.state)
      ensures durabilityCap.Value() ==
                if DurabilityKey in nbt then st.readDurability(old(durabilityCap.Value()), GetCompound(nbt, DurabilityKey))
                else old(durabilityCap.Value())
    {
      if CharmableKey in nbt {
        var tag := GetCompound(nbt, CharmableKey);
        charmableCap.state := st.readCharmable(charmableCap.state, tag);
      }
      if RunestonesKey in nbt {
        var tag := GetCompound(nbt, RunestonesKey);
        runestonesCap.state := st.readRunestones(runestonesCap.state, tag);
      }
      if DurabilityKey in nbt {
        var tag := GetCompound(nbt, DurabilityKey);
        durabilityCap.SetValue(st.readDurability(durabilityCap.Value(), tag));
      }
    }

    /**
     * With storages whose read restores what write produced, deserialising a provider's own
     * serialisation into another provider gives that provider the same three states.
     */
    method CopyThroughNbt(other: AdornmentCapabilityProvider, st: Storages)
      requires forall s, s0 :: st.readCharmable(s0, st.writeCharmable(s)) == s
      requires forall s, s0 :: st.readRunestones(s0, st.writeRunestones(s)) == s
      requires forall s, s0 :: st.readDurability(s0, st.writeDurability(s)) == s
      modifies other.charmableCap, other.runestonesCap, other.durabilityCap
      ensures other.charmableCap.state == old(charmableCap.state)
      ensures other.runestonesCap.state == old(runestonesCap.state)
      ensures other.durabilityCap.Value() == old(durabilityCap.Value())
    {
      var t := SerializeNbt(st);
      other.DeserializeNbt(t, st);
    }
  }
}
