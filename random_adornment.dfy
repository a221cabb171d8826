/**
 * RandomAdornment: a loot function that replaces the stack by a random adornment of a chosen
 * material whose maximum charm level equals a drawn level, or keeps the stack when none fits.
 */
module RandomAdornment {
  import opened Wrappers
  import opened Json
  import opened Ranges

  /** A charmable base material: its name (a resource location) and its maximum level. */
  datatype Material = Material(name: string, maxLevel: int)

  /** An adornment item and the maximum charm level of a stack of it. */
  datatype Adornment = Adornment(name: string, maxCharmLevel: int)

  /** The loot function's configuration: the optional level range and the optional material list. */
  datatype RandomAdornment = RandomAdornment(levels: Option<RandomValueRange>, materials: Option<seq<Material>>)

  /** What apply returns: the input stack itself, or a fresh stack of an adornment. */
  datatype Outcome = InputStack | NewStack(adornment: Adornment)

  /**
   * What apply reads from outside: the base-material registry lookup
   * (TreasureCharmableMaterials.getBaseMaterial) and the adornments made of a material
   * (TreasureAdornments.getByMaterial), in registry order.
   */
  datatype Registries = Registries(baseMaterial: string -> Option<Material>, byMaterial: Material -> seq<Adornment>)

  /** The drawn level: 1 without a range, otherwise the range's draw. */
  function Level(f: RandomAdornment, roll: int): int {
    if f.levels.None? then 1 else roll
  }

  /** The level lowered to the material's maximum when it exceeds it. */
  function Clamped(level: int, material: Material): (l: int)
    ensures l <= material.maxLevel
    ensures level <= material.maxLevel ==> l == level
    ensures level > material.maxLevel ==> l == material.maxLevel
    ensures l <= level
  {
    if level > material.maxLevel then material.maxLevel else level
  }

  /**
   * The material: the stack's own base material when no list is configured (the stack's
   * charmable capability is null when stackBase is None), otherwise the picked element of the
   * configured list.
   */
  function ChosenMaterial(f: RandomAdornment, stackBase: Option<string>, reg: Registries, pick: nat): Result<Material> {
    if f.materials.None? then
      if stackBase.None? then Err(NullPointer)
      else if reg.baseMaterial(stackBase.value).None? then Err(NoSuchElement)
      else Ok(reg.baseMaterial(stackBase.value).value)
    else if |f.materials.value| == 0 then Err(IllegalArgument)
    else if pick < |f.materials.value| then Ok(f.materials.value[pick])
    else Err(IllegalArgument)
  }

  /** A configured, non-empty material list always yields one of its own materials. */
  lemma ConfiguredMaterialChosen(f: RandomAdornment, stackBase: Option<string>, reg: Registries, pick: nat)
    requires f.materials.Some? && pick < |f.materials.value|
    ensures ChosenMaterial(f, stackBase, reg, pick).Ok?
    ensures ChosenMaterial(f, stackBase, reg, pick).value in f.materials.value
  {
  }

  /** The adornments whose maximum charm level is exactly the level, in the given order. */
  function WithMaxLevel(adornments: seq<Adornment>, level: int): seq<Adornment>
    decreases |adornments|
  {
    if adornments == [] then []
    else
      var last := adornments[|adornments| - 1];
      WithMaxLevel(adornments[..|adornments| - 1], level) + (if last.maxCharmLevel == level then [last] else [])
  }

  /** The filter keeps exactly the adornments of the level. */
  lemma {:induction false} WithMaxLevelMembers(adornments: seq<Adornment>, level: int)
    ensures forall a :: a in WithMaxLevel(adornments, level) <==> a in adornments && a.maxCharmLevel == level
    decreases |adornments|
  {
    if adornments != [] {
      WithMaxLevelMembers(adornments[..|adornments| - 1], level);
      assert adornments == adornments[..|adornments| - 1] + [adornments[|adornments| - 1]];
    }
  }

  /** The filter keeps registry order: filtering a concatenation concatenates the filtered parts. */
  lemma {:induction false} WithMaxLevelAppend(s: seq<Adornment>, t: seq<Adornment>, level: int)
    ensures WithMaxLevel(s + t, level) == WithMaxLevel(s, level) + WithMaxLevel(t, level)
    decreases |t|
  {
    if t == [] {
      assert s + t == s;
    } else {
      var init := t[..|t| - 1];
      assert (s + t)[..|s + t| - 1] == s + init;
      WithMaxLevelAppend(s, init, level);
    }
  }

  /** The candidate adornments for a material and a drawn level. */
  function Candidates(material: Material, reg: Registries, level: int): seq<Adornment> {
    WithMaxLevel(reg.byMaterial(material), Clamped(level, material))
  }

  /** The adornment draw is within the candidates whenever there are candidates. */
  predicate Draws(f: RandomAdornment, roll: int, stackBase: Option<string>, reg: Registries, materialPick: nat, adornmentPick: nat) {
    (f.levels.Some? ==> f.levels.value.Generates(roll)) &&
    (f.materials.Some? && |f.materials.value| > 0 ==> materialPick < |f.materials.value|) &&
    (ChosenMaterial(f, stackBase, reg, materialPick).Ok? ==>
       var candidates := Candidates(ChosenMaterial(f, stackBase, reg, materialPick).value, reg, Level(f, roll));
       |candidates| > 0 ==> adornmentPick < |candidates|)
  }

  /** apply: default and clamp the level, pick a material, then a candidate adornment, or keep the stack. */
  function Apply(f: RandomAdornment, roll: int, stackBase: Option<string>, reg: Registries, materialPick: nat, adornmentPick: nat)
    : (r: Result<Outcome>)
    requires Draws(f, roll, stackBase, reg, materialPick, adornmentPick)
    ensures r.Err? <==> ChosenMaterial(f, stackBase, reg, materialPick).Err?
  {
    var material := ChosenMaterial(f, stackBase, reg, materialPick);
    if material.Err? then Err(material.fault)
    else
      var adornments := Candidates(material.value, reg, Level(f, roll));
      if |adornments| == 0 then Ok(InputStack) else Ok(NewStack(adornments[adornmentPick]))
  }

  /**
   * The outcome of apply: the input stack exactly when no adornment of the material has the
   * clamped level; otherwise an adornment of the material whose maximum charm level is the drawn
   * level lowered to the material's maximum.
   */
  lemma ApplyOutcome(f: RandomAdornment, roll: int, stackBase: Option<string>, reg: Registries, materialPick: nat, adornmentPick: nat)
    requires Draws(f, roll, stackBase, reg, materialPick, adornmentPick)
    requires ChosenMaterial(f, stackBase, reg, materialPick).Ok?
    ensures var m := ChosenMaterial(f, stackBase, reg, materialPick).value;
            var r := Apply(f, roll, stackBase, reg, materialPick, adornmentPick);
            && (r == Ok(InputStack) <==> forall a :: a in reg.byMaterial(m) ==> a.maxCharmLevel != Clamped(Level(f, roll), m))
            && (r.value.NewStack? ==>
                  && r.value.adornment in reg.byMaterial(m)
                  && r.value.adornment.maxCharmLevel == Clamped(Level(f, roll), m)
                  && r.value.adornment.maxCharmLevel <= m.maxLevel)
  {
    var m := ChosenMaterial(f, stackBase, reg, materialPick).value;
    var candidates := Candidates(m, reg, Level(f, roll));
    WithMaxLevelMembers(reg.byMaterial(m), Clamped(Level(f, roll), m));
    if |candidates| > 0 {
      assert candidates[0] in candidates;
    }
  }

  // ---------------------------------------------------------------------------------------
  // Serializer

  /** The material names, in list order, as written to the "materials" array. */
  function NamesJson(materials: seq<Material>): seq<Json> {
    Strings(seq(|materials|, i requires 0 <= i < |materials| => materials[i].name))
  }

  /** serialize: always writes "levels" (JSON null without a range), and "materials" only when present. */
  function Serialize(f: RandomAdornment, codec: RangeCodec, json: map<string, Json>): (r: map<string, Json>)
    ensures "levels" in r && r["levels"] == WriteRange(codec, f.levels)
    ensures f.materials.Some? ==> "materials" in r && r["materials"] == JArray(NamesJson(f.materials.value))
    ensures f.materials.None? ==> r == json["levels" := WriteRange(codec, f.levels)]
  {
    var withLevels := json["levels" := WriteRange(codec, f.levels)];
    if f.materials.Some? then withLevels["materials" := JArray(NamesJson(f.materials.value))] else withLevels
  }

  /** The recognised materials named by the array elements, in order; unknown names are skipped. */
  function KnownMaterials(elements: seq<Json>, lookup: string -> Option<Material>): Result<seq<Material>>
    decreases |elements|
  {
    if elements == [] then Ok([])
    else match KnownMaterials(elements[..|elements| - 1], lookup)
      case Err(e) => Err(e)
      case Ok(prior) =>
        match GetString(elements[|elements| - 1])
        case Err(e) => Err(e)
        case Ok(name) => if lookup(name).Some? then Ok(prior + [lookup(name).value]) else Ok(prior)
  }

  /** deserialize, as a value: the list stays absent when no material is recognised. */
  function Deserialized(json: map<string, Json>, codec: RangeCodec, lookup: string -> Option<Material>): Result<RandomAdornment> {
    var levels := if "levels" in json then ReadRange(codec, json["levels"]) else Ok(None);
    if levels.Err? then Err(levels.fault)
    else if "materials" !in json then Ok(RandomAdornment(levels.value, None))
    else
      var elements := GetArray(json, "materials");
      if elements.Err? then Err(elements.fault)
      else
        var known := KnownMaterials(elements.value, lookup);
        if known.Err? then Err(known.fault)
        else Ok(RandomAdornment(levels.value, if known.value == [] then None else Some(known.value)))
  }

  /** Once reading fails on a prefix of the array it fails with the same fault on the whole array. */
  lemma {:induction false} KnownErrPersists(elements: seq<Json>, lookup: string -> Option<Material>, k: nat)
    requires k <= |elements| && KnownMaterials(elements[..k], lookup).Err?
    ensures KnownMaterials(elements, lookup) == KnownMaterials(elements[..k], lookup)
    decreases |elements| - k
  {
    if k < |elements| {
      assert elements[..k + 1][..k] == elements[..k];
      KnownErrPersists(elements, lookup, k + 1);
    } else {
      assert elements[..k] == elements;
    }
  }

  /**
   * deserialize: reads the optional levels range, then walks the "materials" array, creating the
   * list at the first recognised material and skipping unknown names.
   */
  method Deserialize(json: map<string, Json>, codec: RangeCodec, lookup: string -> Option<Material>)
    returns (r: Result<RandomAdornment>)
    ensures r == Deserialized(json, codec, lookup)
  {
    var levels: Option<RandomValueRange> := None;
    if "levels" in json {
      var range := ReadRange(codec, json["levels"]);
      if range.Err? {
        return Err(range.fault);
      }
      levels := range.value;
    }
    var materials: Option<seq<Material>> := None;
    if "materials" in json {
      var materialsArray := GetArray(json, "materials");
      if materialsArray.Err? {
        return Err(materialsArray.fault);
      }
      var elements := materialsArray.value;
      var i := 0;
      while i < |elements|
        invariant 0 <= i <= |elements|
        invariant KnownMaterials(elements[..i], lookup).Ok?
        invariant materials.None? ==> KnownMaterials(elements[..i], lookup).value == []
        invariant materials.Some? ==> KnownMaterials(elements[..i], lookup).value == materials.value != []
      {
        assert elements[..i + 1][..i] == elements[..i];
        var materialName := GetString(elements[i]);
        if materialName.Err? {
          KnownErrPersists(elements, lookup, i + 1);
          return Err(materialName.fault);
        }
        var material := lookup(materialName.value);
        if material.Some? {
          if materials.None? {
            materials := Some([]);
          }
          materials := Some(materials.value + [material.value]);
        }
        // an unknown material is only logged
        i := i + 1;
      }
      assert elements[..i] == elements;
    }
    return Ok(RandomAdornment(levels, materials));
  }

  /** The names written by serialize read back as the materials when each is registered under its name. */
  lemma {:induction false} KnownNames(materials: seq<Material>, lookup: string -> Option<Material>)
    requires forall m :: m in materials ==> lookup(m.name) == Some(m)
    ensures KnownMaterials(NamesJson(materials), lookup) == Ok(materials)
    decreases |materials|
  {
    if materials != [] {
      var init := materials[..|materials| - 1];
      assert NamesJson(materials)[..|materials| - 1] == NamesJson(init);
      KnownNames(init, lookup);
      assert init + [materials[|materials| - 1]] == materials;
    }
  }

  /**
   * deserialize inverts serialize for a loot function whose materials are registered under their
   * names, as long as a configured list is non-empty; an empty list reads back as no list.
   */
  lemma RoundTrip(f: RandomAdornment, codec: RangeCodec, lookup: string -> Option<Material>)
    requires forall r :: codec.write(r) != JNull && codec.read(codec.write(r)) == Ok(r)
    requires f.materials.Some? ==> forall m :: m in f.materials.value ==> lookup(m.name) == Some(m)
    ensures f.materials != Some([]) ==> Deserialized(Serialize(f, codec, map[]), codec, lookup) == Ok(f)
    ensures f.materials == Some([]) ==> Deserialized(Serialize(f, codec, map[]), codec, lookup) == Ok(RandomAdornment(f.levels, None))
  {
    ReadWriteRange(codec, f.levels);
    if f.materials.Some? {
      KnownNames(f.materials.value, lookup);
    }
  }
}
