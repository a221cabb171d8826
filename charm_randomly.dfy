/**
 * CharmRandomly: a loot function that adds one randomly chosen charm to a stack's charm
 * inventory, unless the stack already carries a charm of the same type or name.
 */
module CharmRandomly {
  import opened Wrappers
  import opened Json
  import opened Ranges

  /** A charm: its name (a resource location), its type and its level. */
  datatype Charm = Charm(name: string, charmType: string, level: int)

  /** charm.createEntity(): a fresh entity of the charm. */
  datatype CharmEntity = CharmEntity(charm: Charm)

  /**
   * TreasureCharmRegistry as these functions read it: lookup by name, the charms of each level,
   * and values() in its iteration order.
   */
  datatype CharmRegistry = CharmRegistry(byName: map<string, Charm>, byLevel: map<int, seq<Charm>>, values: seq<Charm>)

  /** The charm-inventory capability of a stack; its entity list is appended to in place. */
  class CharmInventoryCapability {
    var charmEntities: seq<CharmEntity>

    constructor (entities: seq<CharmEntity>)
      ensures charmEntities == entities
    {
      charmEntities := entities;
    }
  }

  /** An item stack seen through its charm-inventory capability; null when it has none. */
  class ItemStack {
    const charmCap: CharmInventoryCapability?

    constructor (cap: CharmInventoryCapability?)
      ensures charmCap == cap
    {
      charmCap := cap;
    }
  }

  /** The loot function's configuration: the listed charms and the optional level range. */
  datatype CharmRandomly = CharmRandomly(charms: seq<Charm>, levels: Option<RandomValueRange>)

  /** The constructors: a null charm list becomes the empty list. */
  function Create(charms: Option<seq<Charm>>, levels: Option<RandomValueRange>): CharmRandomly {
    CharmRandomly(if charms.Some? then charms.value else [], levels)
  }

  // ---------------------------------------------------------------------------------------
  // Choosing a charm

  /** CharmLevel.LEVEL1 and LEVEL2, the "minor" charms. */
  predicate IsMinor(c: Charm) {
    c.level == 1 || c.level == 2
  }

  /** The registered charms of level 1 or 2, in registry order. */
  function MinorCharms(s: seq<Charm>): seq<Charm>
    decreases |s|
  {
    if s == [] then []
    else MinorCharms(s[..|s| - 1]) + (if IsMinor(s[|s| - 1]) then [s[|s| - 1]] else [])
  }

  /** MinorCharms keeps exactly the level-1 and level-2 charms. */
  lemma {:induction false} MinorCharmsSpec(s: seq<Charm>)
    ensures forall c :: c in MinorCharms(s) <==> c in s && IsMinor(c)
    decreases |s|
  {
    if s != [] {
      MinorCharmsSpec(s[..|s| - 1]);
      assert s == s[..|s| - 1] + [s[|s| - 1]];
    }
  }

  /** TreasureCharmRegistry.get(level), empty when the level has no charms. */
  function LevelCharms(reg: CharmRegistry, level: int): seq<Charm> {
    if level in reg.byLevel then reg.byLevel[level] else []
  }

  /**
   * The candidate pool: without listed charms, the charms of the drawn level (with a range) or
   * the minor charms (without one); with listed charms, the charms of the drawn level (with a
   * range) followed by the listed charms.
   */
  function Pool(f: CharmRandomly, reg: CharmRegistry, level: int): seq<Charm> {
    if f.charms == [] then
      (if f.levels.Some? then LevelCharms(reg, level) else MinorCharms(reg.values))
    else
      (if f.levels.Some? then LevelCharms(reg, level) else []) + f.charms
  }

  /** The drawn values are within their bounds: the level within the range, the index within the pool. */
  predicate Draws(f: CharmRandomly, reg: CharmRegistry, level: int, pick: nat) {
    (f.levels.Some? ==> f.levels.value.Generates(level)) &&
    (|Pool(f, reg, level)| > 0 ==> pick < |Pool(f, reg, level)|)
  }

  /** The charm chosen from the pool, none when the pool is empty. */
  function Selected(f: CharmRandomly, reg: CharmRegistry, level: int, pick: nat): (c: Option<Charm>)
    requires Draws(f, reg, level, pick)
    ensures c.Some? <==> |Pool(f, reg, level)| > 0
    ensures c.Some? ==> c.value in Pool(f, reg, level)
  {
    var pool := Pool(f, reg, level);
    if |pool| > 0 then Some(pool[pick]) else None
  }

  /** With listed charms the pool holds them all, so a charm is always chosen. */
  lemma ListedCharmsAlwaysChosen(f: CharmRandomly, reg: CharmRegistry, level: int, pick: nat)
    requires Draws(f, reg, level, pick) && f.charms != []
    ensures forall c :: c in f.charms ==> c in Pool(f, reg, level)
    ensures Selected(f, reg, level, pick).Some?
  {
  }

  /** Without listed charms or a range, the pool is exactly the registered minor charms. */
  lemma DefaultPoolIsMinorCharms(f: CharmRandomly, reg: CharmRegistry, level: int)
    requires f.charms == [] && f.levels.None?
    ensures forall c :: c in Pool(f, reg, level) <==> c in reg.values && IsMinor(c)
  {
    MinorCharmsSpec(reg.values);
  }

  // ---------------------------------------------------------------------------------------
  // Adding the chosen charm

  /** Character.toUpperCase on the ASCII letters. */
  function FoldCase(c: char): char {
    if 'a' <= c <= 'z' then (c as int - 32) as char else c
  }

  /** String.equalsIgnoreCase */
  predicate EqualsIgnoreCase(a: string, b: string) {
    |a| == |b| && forall i :: 0 <= i < |a| ==> FoldCase(a[i]) == FoldCase(b[i])
  }

  /** Two charms clash when their types agree ignoring case or their names are equal. */
  predicate Conflicts(a: Charm, b: Charm) {
    EqualsIgnoreCase(a.charmType, b.charmType) || a.name == b.name
  }

  predicate HasConflict(entities: seq<CharmEntity>, c: Charm) {
    exists i :: 0 <= i < |entities| && Conflicts(entities[i].charm, c)
  }

  /** The entity list after apply: the chosen charm appended unless it clashes with one present. */
  function Added(entities: seq<CharmEntity>, chosen: Option<Charm>): seq<CharmEntity> {
    if chosen.Some? && !HasConflict(entities, chosen.value) then entities + [CharmEntity(chosen.value)]
    else entities
  }

  /** apply keeps the existing entities, in order, and adds at most one. */
  lemma AddedAtMostOne(entities: seq<CharmEntity>, chosen: Option<Charm>)
    ensures |entities| <= |Added(entities, chosen)| <= |entities| + 1
    ensures Added(entities, chosen)[..|entities|] == entities
    ensures |Added(entities, chosen)| == |entities| + 1 <==> chosen.Some? && !HasConflict(entities, chosen.value)
  {
  }

  /** No two entities of a stack clash. */
  predicate Compatible(entities: seq<CharmEntity>) {
    forall i, j :: 0 <= i < j < |entities| ==> !Conflicts(entities[i].charm, entities[j].charm)
  }

  /** Clashing is symmetric. */
  lemma ConflictsSymmetric(a: Charm, b: Charm)
    ensures Conflicts(a, b) <==> Conflicts(b, a)
  {
    if EqualsIgnoreCase(a.charmType, b.charmType) {
      assert forall i :: 0 <= i < |b.charmType| ==> FoldCase(b.charmType[i]) == FoldCase(a.charmType[i]);
    }
  }

  /** apply never gives a stack two clashing charms it did not already have. */
  lemma AddedKeepsCompatible(entities: seq<CharmEntity>, chosen: Option<Charm>)
    requires Compatible(entities)
    ensures Compatible(Added(entities, chosen))
  {
    var r := Added(entities, chosen);
    if chosen.Some? && !HasConflict(entities, chosen.value) {
      forall i, j | 0 <= i < j < |r| ensures !Conflicts(r[i].charm, r[j].charm) {
        if j == |entities| {
          ConflictsSymmetric(r[i].charm, chosen.value);
          assert !Conflicts(entities[i].charm, chosen.value);
        }
      }
    }
  }

  /**
   * apply: with no charm-inventory capability the stack is returned untouched; otherwise the
   * chosen charm's entity is appended to the inventory unless an entity clashes with it. The
   * same stack is returned in every case.
   */
  method Apply(f: CharmRandomly, stack: ItemStack, reg: CharmRegistry, level: int, pick: nat)
    returns (r: ItemStack)
    requires Draws(f, reg, level, pick)
    modifies stack.charmCap
    ensures r == stack
    ensures stack.charmCap != null ==>
              stack.charmCap.charmEntities == Added(old(stack.charmCap.charmEntities), Selected(f, reg, level, pick))
  {
    var charm: Option<Charm> := None;
    var charmCap := stack.charmCap;
    if charmCap != null {
      var charmEntities := charmCap.charmEntities;
      var tempCharms: seq<Charm> := [];
      if f.charms == [] {
        if f.levels.Some? {
          if level in reg.byLevel {
            tempCharms := tempCharms + reg.byLevel[level];
          }
        } else {
          var i := 0;
          while i < |reg.values|
            invariant 0 <= i <= |reg.values|
            invariant tempCharms == MinorCharms(reg.values[..i])
          {
            var c := reg.values[i];
            assert reg.values[..i + 1][..i] == reg.values[..i];
            if c.level == 1 || c.level == 2 {
              tempCharms := tempCharms + [c];
            }
            i := i + 1;
          }
          assert reg.values[..i] == reg.values;
        }
        if |tempCharms| > 0 {
          charm := Some(tempCharms[pick]);
        }
      } else {
        if f.levels.Some? {
          if level in reg.byLevel {
            tempCharms := tempCharms + reg.byLevel[level];
          }
        }
        tempCharms := tempCharms + f.charms;
        charm := Some(tempCharms[pick]);
      }
      assert charm == Selected(f, reg, level, pick);
      if charm.Some? {
        var hasCharm := false;
        var k := 0;
        while k < |charmEntities|
          invariant 0 <= k <= |charmEntities|
          invariant hasCharm <==> exists j :: 0 <= j < k && Conflicts(charmEntities[j].charm, charm.value)
        {
          var entity := charmEntities[k];
          if EqualsIgnoreCase(entity.charm.charmType, charm.value.charmType) || entity.charm.name == charm.value.name {
            hasCharm := true;
            break;
          }
          k := k + 1;
        }
        if !hasCharm {
          charmCap.charmEntities := charmCap.charmEntities + [CharmEntity(charm.value)];
        }
      }
    }
    return stack;
  }

  // ---------------------------------------------------------------------------------------
  // Serializer

  /** The charm names, in list order, as written to the "charms" array. */
  function NamesJson(charms: seq<Charm>): seq<Json> {
    Strings(seq(|charms|, i requires 0 <= i < |charms| => charms[i].name))
  }

  /** serialize: writes the "charms" array only when the list is non-empty, and never the levels. */
  function Serialize(f: CharmRandomly, json: map<string, Json>): (r: map<string, Json>)
    ensures f.charms == [] ==> r == json
    ensures f.charms != [] ==> r == json["charms" := JArray(NamesJson(f.charms))]
  {
    if f.charms != [] then json["charms" := JArray(NamesJson(f.charms))] else json
  }

  /** The types of a list of charms. */
  function TypesOf(s: seq<Charm>): set<string> {
    set c | c in s :: c.charmType
  }

  /** The first charm of each type, in input order (the HashMap keyed by type in deserialize). */
  function FirstOfEachType(s: seq<Charm>): seq<Charm>
    decreases |s|
  {
    if s == [] then []
    else
      var prior := FirstOfEachType(s[..|s| - 1]);
      if s[|s| - 1].charmType in TypesOf(prior) then prior else prior + [s[|s| - 1]]
  }

  /** No two charms of the list share a type. */
  predicate DistinctTypes(s: seq<Charm>) {
    forall i, j :: 0 <= i < j < |s| ==> s[i].charmType != s[j].charmType
  }

  /** FirstOfEachType keeps one charm per type: its types are pairwise distinct and are all the input's types. */
  lemma {:induction false} FirstOfEachTypeTypes(s: seq<Charm>)
    ensures DistinctTypes(FirstOfEachType(s))
    ensures TypesOf(FirstOfEachType(s)) == TypesOf(s)
    decreases |s|
  {
    if s != [] {
      var init := s[..|s| - 1];
      var last := s[|s| - 1];
      FirstOfEachTypeTypes(init);
      var prior := FirstOfEachType(init);
      assert s == init + [last];
      assert TypesOf(s) == TypesOf(init) + {last.charmType};
      if last.charmType !in TypesOf(prior) {
        var r := prior + [last];
        assert TypesOf(r) == TypesOf(prior) + {last.charmType};
        forall i, j | 0 <= i < j < |r| ensures r[i].charmType != r[j].charmType {
          if j == |prior| {
            assert r[i] in prior;
          }
        }
      }
    }
  }

  /** No charm before index i has the type of the charm at i. */
  predicate FirstOfType(s: seq<Charm>, i: int)
    requires 0 <= i < |s|
  {
    forall j :: 0 <= j < i ==> s[j].charmType != s[i].charmType
  }

  /** Each charm FirstOfEachType keeps is the first of its type in the input. */
  lemma {:induction false} FirstOfEachTypeFirst(s: seq<Charm>)
    ensures forall c :: c in FirstOfEachType(s) ==> exists i :: 0 <= i < |s| && s[i] == c && FirstOfType(s, i)
    decreases |s|
  {
    if s != [] {
      var init := s[..|s| - 1];
      var last := s[|s| - 1];
      FirstOfEachTypeFirst(init);
      var prior := FirstOfEachType(init);
      forall c | c in prior ensures exists i :: 0 <= i < |s| && s[i] == c && FirstOfType(s, i) {
        var i :| 0 <= i < |init| && init[i] == c && FirstOfType(init, i);
        assert s[i] == c && FirstOfType(s, i);
      }
      if last.charmType !in TypesOf(prior) {
        FirstOfEachTypeTypes(init);
        forall j | 0 <= j < |init| ensures s[j].charmType != last.charmType {
          assert init[j] in init;
        }
        assert FirstOfType(s, |s| - 1);
      }
    }
  }

  /** A list whose types are already distinct is kept whole. */
  lemma {:induction false} FirstOfEachTypeOfDistinct(s: seq<Charm>)
    requires DistinctTypes(s)
    ensures FirstOfEachType(s) == s
    decreases |s|
  {
    if s != [] {
      var init := s[..|s| - 1];
      FirstOfEachTypeOfDistinct(init);
      assert s[|s| - 1].charmType !in TypesOf(init);
      assert init + [s[|s| - 1]] == s;
    }
  }

  /**
   * The charms named by the array elements, as deserialize resolves them: an element that is not
   * a JSON primitive is a JsonSyntaxException, and an unknown name fails on Optional.get() after the warning.
   */
  function ResolveAsWritten(elements: seq<Json>, reg: CharmRegistry): Result<seq<Charm>>
    decreases |elements|
  {
    if elements == [] then Ok([])
    else match ResolveAsWritten(elements[..|elements| - 1], reg)
      case Err(e) => Err(e)
      case Ok(prior) =>
        match GetString(elements[|elements| - 1])
        case Err(e) => Err(e)
        case Ok(name) =>
          if name in reg.byName then Ok(prior + [reg.byName[name]]) else Err(NoSuchElement)
  }

  /** The charms named by the array elements, skipping unknown names as evidently intended. */
  function ResolveKnown(elements: seq<Json>, reg: CharmRegistry): Result<seq<Charm>>
    decreases |elements|
  {
    if elements == [] then Ok([])
    else match ResolveKnown(elements[..|elements| - 1], reg)
      case Err(e) => Err(e)
      case Ok(prior) =>
        match GetString(elements[|elements| - 1])
        case Err(e) => Err(e)
        case Ok(name) =>
          if name in reg.byName then Ok(prior + [reg.byName[name]]) else Ok(prior)
  }

  /** Once resolution fails on a prefix it fails with the same fault on the whole array. */
  lemma {:induction false} ResolveErrPersists(elements: seq<Json>, reg: CharmRegistry, k: nat)
    requires k <= |elements| && ResolveKnown(elements[..k], reg).Err?
    ensures ResolveKnown(elements, reg) == ResolveKnown(elements[..k], reg)
    decreases |elements| - k
  {
    if k < |elements| {
      assert elements[..k + 1][..k] == elements[..k];
      ResolveErrPersists(elements, reg, k + 1);
    } else {
      assert elements[..k] == elements;
    }
  }

  /** deserialize as written, as a value: the levels range, then the first charm of each type. */
  function DeserializedAsWritten(json: map<string, Json>, reg: CharmRegistry, codec: RangeCodec): Result<CharmRandomly> {
    var levels := if "levels" in json then ReadRange(codec, json["levels"]) else Ok(None);
    if levels.Err? then Err(levels.fault)
    else if "charms" !in json then Ok(CharmRandomly([], levels.value))
    else
      var elements := GetArray(json, "charms");
      if elements.Err? then Err(elements.fault)
      else
        var resolved := ResolveAsWritten(elements.value, reg);
        if resolved.Err? then Err(resolved.fault)
        else Ok(CharmRandomly(FirstOfEachType(resolved.value), levels.value))
  }

  /** deserialize with unknown names skipped. */
  function Deserialized(json: map<string, Json>, reg: CharmRegistry, codec: RangeCodec): Result<CharmRandomly> {
    var levels := if "levels" in json then ReadRange(codec, json["levels"]) else Ok(None);
    if levels.Err? then Err(levels.fault)
    else if "charms" !in json then Ok(CharmRandomly([], levels.value))
    else
      var elements := GetArray(json, "charms");
      if elements.Err? then Err(elements.fault)
      else
        var resolved := ResolveKnown(elements.value, reg);
        if resolved.Err? then Err(resolved.fault)
        else Ok(CharmRandomly(FirstOfEachType(resolved.value), levels.value))
  }

  /**
   * deserialize: reads the optional levels range, then walks the "charms" array, keeping the
   * first charm of each type in input order and skipping unknown names.
   */
  method Deserialize(json: map<string, Json>, reg: CharmRegistry, codec: RangeCodec)
    returns (r: Result<CharmRandomly>)
    ensures r == Deserialized(json, reg, codec)
  {
    var charmsByType: map<string, Charm> := map[];
    var list: seq<Charm> := [];
    var range: Option<RandomValueRange> := None;
    if "levels" in json {
      var levels := ReadRange(codec, json["levels"]);
      if levels.Err? {
        return Err(levels.fault);
      }
      range := levels.value;
    }
    if "charms" in json {
      var charmsArray := GetArray(json, "charms");
      if charmsArray.Err? {
        return Err(charmsArray.fault);
      }
      var elements := charmsArray.value;
      ghost var resolved: seq<Charm> := [];
      var i := 0;
      while i < |elements|
        invariant 0 <= i <= |elements|
        invariant ResolveKnown(elements[..i], reg) == Ok(resolved)
        invariant list == FirstOfEachType(resolved)
        invariant charmsByType.Keys == TypesOf(list)
      {
        assert elements[..i + 1][..i] == elements[..i];
        var charmName := GetString(elements[i]);
        if charmName.Err? {
          ResolveErrPersists(elements, reg, i + 1);
          return Err(charmName.fault);
        }
        if charmName.value in reg.byName {
          var charm := reg.byName[charmName.value];
          resolved := resolved + [charm];
          if charm.charmType !in charmsByType {
            charmsByType := charmsByType[charm.charmType := charm];
            list := list + [charm];
          }
        }
        // an unknown name is only logged
        i := i + 1;
      }
      assert elements[..i] == elements;
    }
    return Ok(CharmRandomly(list, range));
  }

  /** A charm name that is not registered makes deserialize as written fail, where skipping it was intended. */
  lemma UnknownCharmFails(reg: CharmRegistry, codec: RangeCodec, name: string)
    requires name !in reg.byName
    ensures DeserializedAsWritten(map["charms" := JArray([JString(name)])], reg, codec) == Err(NoSuchElement)
    ensures Deserialized(map["charms" := JArray([JString(name)])], reg, codec) == Ok(CharmRandomly([], None))
  {
    var json := map["charms" := JArray([JString(name)])];
    assert "levels" !in json;
    var elements := [JString(name)];
    assert elements[..0] == [];
    assert ResolveAsWritten(elements, reg) == Err(NoSuchElement);
    assert ResolveKnown(elements, reg) == Ok([]);
  }

  /** The names written by serialize resolve back to the charms when each is registered under its name. */
  lemma {:induction false} ResolveNames(charms: seq<Charm>, reg: CharmRegistry)
    requires forall c :: c in charms ==> c.name in reg.byName && reg.byName[c.name] == c
    ensures ResolveKnown(NamesJson(charms), reg) == Ok(charms)
    ensures ResolveAsWritten(NamesJson(charms), reg) == Ok(charms)
    decreases |charms|
  {
    if charms != [] {
      var init := charms[..|charms| - 1];
      assert NamesJson(charms)[..|charms| - 1] == NamesJson(init);
      ResolveNames(init, reg);
      assert init + [charms[|charms| - 1]] == charms;
    }
  }

  /** serialize as written drops the levels range: it does not survive a round trip. */
  lemma SerializeDropsLevels(f: CharmRandomly, reg: CharmRegistry, codec: RangeCodec)
    requires f.levels.Some? && f.charms == []
    ensures DeserializedAsWritten(Serialize(f, map[]), reg, codec) == Ok(CharmRandomly([], None))
  {
  }

  /** serialize with the levels range written under "levels", as the loot function's JSON form requires. */
  function SerializeWithLevels(f: CharmRandomly, codec: RangeCodec, json: map<string, Json>): (r: map<string, Json>)
    ensures f.levels.Some? ==> "levels" in r && r["levels"] == codec.write(f.levels.value)
    ensures f.levels.None? && f.charms == [] ==> r == json
  {
    var withLevels := if f.levels.Some? then json["levels" := codec.write(f.levels.value)] else json;
    Serialize(f, withLevels)
  }

  /**
   * The corrected serialize round-trips: a loot function whose charms are registered under
   * their names, with distinct types, is read back as it was written.
   */
  lemma RoundTrip(f: CharmRandomly, reg: CharmRegistry, codec: RangeCodec)
    requires forall r :: codec.write(r) != JNull && codec.read(codec.write(r)) == Ok(r)
    requires forall c :: c in f.charms ==> c.name in reg.byName && reg.byName[c.name] == c
    requires DistinctTypes(f.charms)
    ensures Deserialized(SerializeWithLevels(f, codec, map[]), reg, codec) == Ok(f)
    ensures DeserializedAsWritten(SerializeWithLevels(f, codec, map[]), reg, codec) == Ok(f)
  {
    var json := SerializeWithLevels(f, codec, map[]);
    ResolveNames(f.charms, reg);
    FirstOfEachTypeOfDistinct(f.charms);
    ReadWriteRange(codec, f.levels);
    var levels := if "levels" in json then ReadRange(codec, json["levels"]) else Ok(None);
    assert levels == Ok(f.levels);
    if f.charms == [] {
      assert "charms" !in json;
    } else {
      assert GetArray(json, "charms") == Ok(NamesJson(f.charms));
    }
  }
}
