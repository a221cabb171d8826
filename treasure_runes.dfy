/**
 * TreasureRunes: the runestone registries. Runestones are registered by name (first one wins),
 * listed once each under their rarity in registration order, and mapped to an item (first one wins).
 */
module TreasureRunes {
  import opened Enums
  import opened Wrappers

  /** A runestone; `id` stands for object identity, which the rarity registry compares by. */
  datatype Runestone = Runestone(id: nat, name: string, rarity: Rarity)

  /** An item a runestone can be mapped to. */
  datatype Item = Item(name: string)

  /** The eight runestones of the static initialiser (names as given to ResourceLocationUtil.create). */
  const RuneOfMana := Runestone(0, "mana_rune", Scarce)
  const RuneOfDurability := Runestone(1, "durability_rune", Scarce)
  const RuneOfQuality := Runestone(2, "quality_rune", Rare)
  const RuneOfEquipAsMana := Runestone(3, "equip_mana_rune", Rare)
  const RuneOfAnvil := Runestone(4, "anvil_rune", Epic)
  const RuneOfAngels := Runestone(5, "angels_rune", Legendary)
  const RuneOfPersistence := Runestone(6, "persistence_rune", Epic)
  const RuneOfSockets := Runestone(7, "sockets_rune", Rare)

  /** The static initialiser's registration order. */
  const InitialRunestones: seq<Runestone> :=
    [RuneOfMana, RuneOfDurability, RuneOfQuality, RuneOfEquipAsMana,
     RuneOfAnvil, RuneOfAngels, RuneOfPersistence, RuneOfSockets]

  /** The three registries as one value: REGISTRY, RARITY_REGISTRY and ITEM_REGISTRY. */
  datatype Registry = Registry(
    byName: map<string, Runestone>,
    byRarity: map<Rarity, seq<Runestone>>,
    items: map<Runestone, Item>)

  const EmptyRegistry := Registry(map[], map[], map[])

  predicate NoDuplicates<T(==)>(s: seq<T>) {
    forall i, j :: 0 <= i < j < |s| ==> s[i] != s[j]
  }

  /** getByRarity: the runestones listed under a rarity, empty when there are none. */
  function ListedUnder(reg: Registry, rarity: Rarity): seq<Runestone> {
    if rarity in reg.byRarity then reg.byRarity[rarity] else []
  }

  /** RARITY_REGISTRY.containsValue */
  predicate Listed(reg: Registry, rs: Runestone) {
    exists r | r in reg.byRarity :: rs in reg.byRarity[r]
  }

  /**
   * Every name maps to a runestone of that name; every rarity list holds runestones of that
   * rarity, each at most once, so no runestone is listed twice anywhere.
   */
  ghost predicate Valid(reg: Registry) {
    (forall n :: n in reg.byName ==> reg.byName[n].name == n) &&
    (forall r :: r in reg.byRarity ==>
       NoDuplicates(reg.byRarity[r]) &&
       forall i :: 0 <= i < |reg.byRarity[r]| ==> reg.byRarity[r][i].rarity == r)
  }

  /** In a valid registry a runestone can only be listed under its own rarity. */
  lemma ListedUnderOwnRarity(reg: Registry, rs: Runestone)
    requires Valid(reg)
    ensures Listed(reg, rs) <==> rs in ListedUnder(reg, rs.rarity)
  {
    if Listed(reg, rs) {
      var r :| r in reg.byRarity && rs in reg.byRarity[r];
      var i :| 0 <= i < |reg.byRarity[r]| && reg.byRarity[r][i] == rs;
      assert rs.rarity == r;
    }
  }

  /**
   * register(runestone): the name is taken only if free; the runestone is listed only if it is not
   * yet (in a valid registry it can only be listed under its own rarity, see ListedUnderOwnRarity).
   */
  function Registered(reg: Registry, rs: Runestone): Registry {
    Registry(
      if rs.name in reg.byName then reg.byName else reg.byName[rs.name := rs],
      if rs in ListedUnder(reg, rs.rarity) then reg.byRarity
      else reg.byRarity[rs.rarity := ListedUnder(reg, rs.rarity) + [rs]],
      reg.items)
  }

  /** In a valid registry, a rarity's list holds exactly the listed runestones of that rarity. */
  lemma ListedUnderExactly(reg: Registry, rarity: Rarity)
    requires Valid(reg)
    ensures forall rs :: rs in ListedUnder(reg, rarity) <==> Listed(reg, rs) && rs.rarity == rarity
  {
    forall rs
      ensures rs in ListedUnder(reg, rarity) <==> Listed(reg, rs) && rs.rarity == rarity
    {
      ListedUnderOwnRarity(reg, rs);
      if rs in ListedUnder(reg, rarity) {
        var i :| 0 <= i < |reg.byRarity[rarity]| && reg.byRarity[rarity][i] == rs;
        assert rs.rarity == rarity;
      }
    }
  }

  /**
   * Registering keeps the registries valid; a name already taken keeps its runestone; the new
   * runestone ends up listed exactly once, at the end of its own rarity's list if it was new; no
   * other rarity's list changes.
   */
  lemma RegisteredFacts(reg: Registry, rs: Runestone)
    requires Valid(reg)
    ensures Valid(Registered(reg, rs))
    ensures rs.name in reg.byName ==> Registered(reg, rs).byName[rs.name] == reg.byName[rs.name]
    ensures rs.name !in reg.byName ==> Registered(reg, rs).byName[rs.name] == rs
    ensures rs in ListedUnder(reg, rs.rarity) ==> Registered(reg, rs).byRarity == reg.byRarity
    ensures rs !in ListedUnder(reg, rs.rarity) ==>
              ListedUnder(Registered(reg, rs), rs.rarity) == ListedUnder(reg, rs.rarity) + [rs]
    ensures forall r :: r != rs.rarity ==> ListedUnder(Registered(reg, rs), r) == ListedUnder(reg, r)
    ensures Registered(reg, rs).items == reg.items
  {
    if rs !in ListedUnder(reg, rs.rarity) {
      var s := ListedUnder(reg, rs.rarity) + [rs];
      assert NoDuplicates(s) by {
        forall i, j | 0 <= i < j < |s| ensures s[i] != s[j] {
          if j == |s| - 1 {
            assert s[i] in ListedUnder(reg, rs.rarity);
          }
        }
      }
    }
  }

  /** The registries after the static initialiser: the eight runestones registered in source order. */
  function Initial(): Registry {
    Registered(Registered(Registered(Registered(Registered(Registered(Registered(Registered(
      EmptyRegistry, RuneOfMana), RuneOfDurability), RuneOfQuality), RuneOfEquipAsMana),
      RuneOfAnvil), RuneOfAngels), RuneOfPersistence), RuneOfSockets)
  }

  /** The eight initial names are pairwise different. */
  lemma InitialNamesDistinct()
    ensures RuneOfMana.name !in {RuneOfDurability.name, RuneOfQuality.name, RuneOfEquipAsMana.name, RuneOfAnvil.name, RuneOfAngels.name, RuneOfPersistence.name, RuneOfSockets.name}
    ensures RuneOfDurability.name !in {RuneOfQuality.name, RuneOfEquipAsMana.name, RuneOfAnvil.name, RuneOfAngels.name, RuneOfPersistence.name, RuneOfSockets.name}
    ensures RuneOfQuality.name !in {RuneOfEquipAsMana.name, RuneOfAnvil.name, RuneOfAngels.name, RuneOfPersistence.name, RuneOfSockets.name}
    ensures RuneOfEquipAsMana.name !in {RuneOfAnvil.name, RuneOfAngels.name, RuneOfPersistence.name, RuneOfSockets.name}
    ensures RuneOfAnvil.name !in {RuneOfAngels.name, RuneOfPersistence.name, RuneOfSockets.name}
    ensures RuneOfAngels.name !in {RuneOfPersistence.name, RuneOfSockets.name}
    ensures RuneOfPersistence.name !in {RuneOfSockets.name}
  {
  }

  /** The registries the static initialiser leaves, written out. */
  const InitialTable := Registry(
    map[RuneOfMana.name := RuneOfMana, RuneOfDurability.name := RuneOfDurability,
        RuneOfQuality.name := RuneOfQuality, RuneOfEquipAsMana.name := RuneOfEquipAsMana,
        RuneOfAnvil.name := RuneOfAnvil, RuneOfAngels.name := RuneOfAngels,
        RuneOfPersistence.name := RuneOfPersistence, RuneOfSockets.name := RuneOfSockets],
    map[Scarce := [RuneOfMana, RuneOfDurability],
        Rare := [RuneOfQuality, RuneOfEquipAsMana, RuneOfSockets],
        Epic := [RuneOfAnvil, RuneOfPersistence],
        Legendary := [RuneOfAngels]],
    map[])

  /** Registering a runestone whose name is free and that is not listed yet adds it to both registries. */
  lemma RegisteredFresh(reg: Registry, rs: Runestone)
    requires rs.name !in reg.byName && rs !in ListedUnder(reg, rs.rarity)
    ensures Registered(reg, rs) ==
              Registry(reg.byName[rs.name := rs], reg.byRarity[rs.rarity := ListedUnder(reg, rs.rarity) + [rs]], reg.items)
  {
  }

  /** The registries halfway through the static initialiser, after the SCARCE and the first two RARE runestones. */
  const HalfwayTable := Registry(
    map[RuneOfMana.name := RuneOfMana, RuneOfDurability.name := RuneOfDurability,
        RuneOfQuality.name := RuneOfQuality, RuneOfEquipAsMana.name := RuneOfEquipAsMana],
    map[Scarce := [RuneOfMana, RuneOfDurability], Rare := [RuneOfQuality, RuneOfEquipAsMana]],
    map[])

  /** The first four registrations of the static initialiser. */
  lemma InitialFirstHalf()
    ensures Registered(Registered(Registered(Registered(
              EmptyRegistry, RuneOfMana), RuneOfDurability), RuneOfQuality), RuneOfEquipAsMana) == HalfwayTable
  {
    InitialNamesDistinct();
    var r0 := EmptyRegistry;
    RegisteredFresh(r0, RuneOfMana);
    var r1 := Registered(r0, RuneOfMana);
    assert ListedUnder(r1, Scarce) == [RuneOfMana];
    RegisteredFresh(r1, RuneOfDurability);
    var r2 := Registered(r1, RuneOfDurability);
    assert ListedUnder(r2, Rare) == [];
    RegisteredFresh(r2, RuneOfQuality);
    var r3 := Registered(r2, RuneOfQuality);
    assert ListedUnder(r3, Rare) == [RuneOfQuality];
    RegisteredFresh(r3, RuneOfEquipAsMana);
    var r4 := Registered(r3, RuneOfEquipAsMana);
    assert r4.byName == HalfwayTable.byName;
    assert r4.byRarity[Scarce] == [RuneOfMana] + [RuneOfDurability] == HalfwayTable.byRarity[Scarce];
    assert r4.byRarity[Rare] == [RuneOfQuality] + [RuneOfEquipAsMana] == HalfwayTable.byRarity[Rare];
    assert r4.byRarity.Keys == HalfwayTable.byRarity.Keys;
    assert r4.byRarity == HalfwayTable.byRarity;
  }

  /** The registries after the static initialiser's sixth registration, the LEGENDARY angels runestone. */
  const SixRegisteredTable := Registry(
    HalfwayTable.byName[RuneOfAnvil.name := RuneOfAnvil][RuneOfAngels.name := RuneOfAngels],
    HalfwayTable.byRarity[Epic := [RuneOfAnvil]][Legendary := [RuneOfAngels]],
    map[])

  /** The fifth and sixth registrations of the static initialiser. */
  lemma InitialThirdQuarter()
    ensures Registered(Registered(HalfwayTable, RuneOfAnvil), RuneOfAngels) == SixRegisteredTable
  {
    InitialNamesDistinct();
    var r4 := HalfwayTable;
    assert ListedUnder(r4, Epic) == [];
    RegisteredFresh(r4, RuneOfAnvil);
    var r5 := Registered(r4, RuneOfAnvil);
    assert ListedUnder(r5, Legendary) == [];
    RegisteredFresh(r5, RuneOfAngels);
    assert ListedUnder(r4, Epic) + [RuneOfAnvil] == [RuneOfAnvil];
    assert r5.byRarity == HalfwayTable.byRarity[Epic := [RuneOfAnvil]];
    assert ListedUnder(r5, Legendary) + [RuneOfAngels] == [RuneOfAngels];
    assert Registered(r5, RuneOfAngels).byRarity == SixRegisteredTable.byRarity;
  }

  /** The last two registrations of the static initialiser. */
  lemma InitialLastQuarter()
    ensures Registered(Registered(SixRegisteredTable, RuneOfPersistence), RuneOfSockets) == InitialTable
  {
    InitialNamesDistinct();
    var r6 := SixRegisteredTable;
    assert ListedUnder(r6, Epic) == [RuneOfAnvil];
    RegisteredFresh(r6, RuneOfPersistence);
    var r7 := Registered(r6, RuneOfPersistence);
    assert ListedUnder(r7, Rare) == [RuneOfQuality, RuneOfEquipAsMana];
    RegisteredFresh(r7, RuneOfSockets);
    var r8 := Registered(r7, RuneOfSockets);
    assert r8.byName == InitialTable.byName;
    assert r8.byRarity.Keys == InitialTable.byRarity.Keys;
    assert r8.byRarity[Rare] == [RuneOfQuality, RuneOfEquipAsMana] + [RuneOfSockets] == InitialTable.byRarity[Rare];
    assert r8.byRarity[Epic] == [RuneOfAnvil] + [RuneOfPersistence] == InitialTable.byRarity[Epic];
    assert r8.byRarity[Scarce] == InitialTable.byRarity[Scarce];
    assert r8.byRarity[Legendary] == InitialTable.byRarity[Legendary];
    assert r8.byRarity == InitialTable.byRarity;
  }

  /**
   * The static initialiser registers the eight names, lists mana and durability as SCARCE,
   * quality, equip-as-mana and sockets as RARE, anvil and persistence as EPIC and angels as
   * LEGENDARY, each list in registration order, and maps no items.
   */
  lemma InitialContents()
    ensures Initial() == InitialTable
  {
    InitialFirstHalf();
    InitialThirdQuarter();
    InitialLastQuarter();
  }

  /** The initial table satisfies the registry invariant. */
  lemma InitialValid()
    ensures Valid(Initial())
  {
    var r0 := EmptyRegistry;
    RegisteredFacts(r0, RuneOfMana);
    var r1 := Registered(r0, RuneOfMana);
    RegisteredFacts(r1, RuneOfDurability);
    var r2 := Registered(r1, RuneOfDurability);
    RegisteredFacts(r2, RuneOfQuality);
    var r3 := Registered(r2, RuneOfQuality);
    RegisteredFacts(r3, RuneOfEquipAsMana);
    var r4 := Registered(r3, RuneOfEquipAsMana);
    RegisteredFacts(r4, RuneOfAnvil);
    var r5 := Registered(r4, RuneOfAnvil);
    RegisteredFacts(r5, RuneOfAngels);
    var r6 := Registered(r5, RuneOfAngels);
    RegisteredFacts(r6, RuneOfPersistence);
    var r7 := Registered(r6, RuneOfPersistence);
    RegisteredFacts(r7, RuneOfSockets);
  }

  class TreasureRunes {
    var registry: map<string, Runestone>
    var rarityRegistry: map<Rarity, seq<Runestone>>
    var itemRegistry: map<Runestone, Item>

    function State(): Registry
      reads this
    {
      Registry(registry, rarityRegistry, itemRegistry)
    }

    /** The static initialiser: the eight runestones, registered in source order. */
    constructor ()
      ensures State() == InitialTable && Valid(State())
    {
      registry, rarityRegistry, itemRegistry := map[], map[], map[];
      new;
      Register(RuneOfMana);
      Register(RuneOfDurability);
      Register(RuneOfQuality);
      Register(RuneOfEquipAsMana);
      Register(RuneOfAnvil);
      Register(RuneOfAngels);
      Register(RuneOfPersistence);
      Register(RuneOfSockets);
      InitialValid();
      InitialContents();
    }

    /** register(runestone) */
    method Register(rs: Runestone)
      requires Valid(State())
      modifies this
      ensures State() == Registered(old(State()), rs) && Valid(State())
      ensures !Listed(old(State()), rs) ==> GetByRarity(rs.rarity) == old(GetByRarity(rs.rarity)) + [rs]
      ensures Listed(old(State()), rs) ==> GetByRarity(rs.rarity) == old(GetByRarity(rs.rarity))
      ensures forall r :: r != rs.rarity ==> GetByRarity(r) == old(GetByRarity(r))
    {
      ghost var before := State();
      ListedUnderOwnRarity(before, rs);
      RegisteredFacts(before, rs);
      if rs.name !in registry {
        registry := registry[rs.name := rs];
      }
      ListedUnderOwnRarity(State(), rs);
      if !Listed(State(), rs) {
        rarityRegistry := rarityRegistry[rs.rarity := ListedUnder(State(), rs.rarity) + [rs]];
      }
    }

    /** get(name): present exactly when the name is registered, holding the registered runestone. */
    function Get(name: string): (r: Option<Runestone>)
      reads this
      requires Valid(State())
      ensures r.Some? <==> name in registry
      ensures r.Some? ==> r.value == registry[name] && r.value.name == name
    {
      if name in registry then Some(registry[name]) else None
    }

    /** getByRarity */
    function GetByRarity(rarity: Rarity): (r: seq<Runestone>)
      reads this
      requires Valid(State())
      ensures NoDuplicates(r)
      ensures forall rs :: rs in r <==> Listed(State(), rs) && rs.rarity == rarity
    {
      ListedUnderExactly(State(), rarity);
      ListedUnder(State(), rarity)
    }

    /** register(runestone, item): the first item mapped to a runestone stays. */
    method RegisterItem(rs: Runestone, item: Item)
      modifies this
      ensures itemRegistry == if rs in old(itemRegistry) then old(itemRegistry) else old(itemRegistry)[rs := item]
      ensures registry == old(registry) && rarityRegistry == old(rarityRegistry)
    {
      if rs !in itemRegistry {
        itemRegistry := itemRegistry[rs := item];
      }
    }

    /** getItem: the mapped item, empty for a runestone that has none. */
    function GetItem(rs: Runestone): (r: Option<Item>)
      reads this
      ensures r.Some? <==> rs in itemRegistry
      ensures r.Some? ==> r.value == itemRegistry[rs]
    {
      if rs in itemRegistry then Some(itemRegistry[rs]) else None
    }
  }
}
