# Treasure2: anvil rules, loot functions and registries in Dafny

This project models the parts of the Treasure2 mod that carry rules of their own, and proves
properties of them. Treasure2 adds locks, keys, charms, runestones and adornments (rings,
necklaces, bracelets) to Minecraft. The modelled parts are:

- the anvil handler (`AnvilEventHandler.onAnvilUpdate`). It merges two keys, binds a charm or
  a runestone into an adornment's socket, imbues a charm, sets a gem into an adornment, or repairs
  an adornment. The rules are tried in that order. Its helpers are `transferCapabilities` and
  `copyStack`;
- the two loot functions `CharmRandomly` and `RandomAdornment`, with their JSON serialisers;
- the runestone registries (`TreasureRunes`), `LockItem`, the key-ring capability storage, the
  adornment capability provider and the durability rune.

Each Java class is one module. Shared modules hold the pieces that several classes use:

- `Wrappers` holds `Option` and `Result`; a `Fault` stands for a thrown exception.
- `Enums` holds the rarity, lock category and inventory type.
- `Nbt` and `Json` hold the tag and JSON values.
- `Ranges` holds the engine's `RandomValueRange`. Its `generateInt` returns the minimum when the
  range is empty or inverted.
- `Capabilities` holds mutable capability objects, as the provider and the durability rune see them.
  These two classes change a capability in place through the stack that holds it, so the stack is
  a class whose capability field is an object.
- `Stacks` holds item stacks as values, as the anvil handler sees them. The handler never changes
  its two input stacks. It builds new stacks step by step and hands one to the event, so each
  step is a new value.
- `CharmRandomly` has a third, smaller stack class. It holds only the charm inventory, which
  `apply` changes in place.

The engine's code is not modelled. Its operations become parameters:

- `Random.nextInt` and `RandomValueRange.generateInt` become draws the caller supplies within their bounds; a range's draw is its minimum when the
  range is empty or inverted.
- The charm, material and adornment registries become maps or functions.
- The capability operations whose code is not part of this model become function-valued fields
  of `Stacks.Engine`: `copyTo`, `transferTo`, `clear` and `Runestone.apply/isValid`.
- `Stacks.ValidEngine` states what the handler relies on. `Runestone.apply` keeps a stack's item
  and its set of capabilities. The adornment registry holds only adornment items.
- `Stacks.WellFormed` states that a stack carries the capabilities its item attaches, and that
  its damage is not negative. An adornment item attaches all three capabilities
  (`AdornmentCapabilityProvider`).

Where the code has an evident bug, the model keeps a member for the code as written. The rest
of the model uses the corrected behaviour. See "## Findings".

## Model

| member | source | states |
|---|---|---|
| DurabilityRune.ShrinkGrow | src/main/java/com/someguyssoftware/treasure2/rune/DurabilityRune.java:56-67 | rounding n·1.25 and then dividing by 1.25 with Math.round gives back n, for every integer n |
| DurabilityRune.UndoApplied | src/main/java/com/someguyssoftware/treasure2/rune/DurabilityRune.java:56-67 | undo's numbers after apply's numbers are the original durability and max durability |
| DurabilityRune.Apply | src/main/java/com/someguyssoftware/treasure2/rune/DurabilityRune.java:46-61 | no change on a stack without durability or for an applied entity; otherwise max and durability grow by a rounded quarter and the entity is marked applied |
| DurabilityRune.Undo | src/main/java/com/someguyssoftware/treasure2/rune/DurabilityRune.java:64-69 | durability and max are divided by 1.25 with rounding; the entity is marked not applied |
| DurabilityRune.ApplyTwice | src/main/java/com/someguyssoftware/treasure2/rune/DurabilityRune.java:48-50 | applying twice leaves the same state as applying once; on a stack without durability the entity's flag is unchanged |
| DurabilityRune.ApplyThenUndo | src/main/java/com/someguyssoftware/treasure2/rune/DurabilityRune.java:46-69 | a successful apply followed by undo restores the durability, the max and the entity flag |
| KeyRingStorage.WriteNbt | src/main/java/com/someguyssoftware/treasure2/capability/KeyRingCapabilityStorage.java:37-45 | the written tag is a compound whose only key is isOpen, and it reads back as the open flag |
| KeyRingStorage.ReadValue | src/main/java/com/someguyssoftware/treasure2/capability/KeyRingCapabilityStorage.java:48-56 | a flag is read exactly when the tag is a compound that holds isOpen |
| KeyRingStorage.ReadWrite | src/main/java/com/someguyssoftware/treasure2/capability/KeyRingCapabilityStorage.java:37-56 | reading a written tag gives the written flag |
| KeyRingStorage.ReadNbt | src/main/java/com/someguyssoftware/treasure2/capability/KeyRingCapabilityStorage.java:48-56 | the instance takes the stored flag; a non-compound tag or a missing key leaves it unchanged |
| KeyRingStorage.RoundTrip | src/main/java/com/someguyssoftware/treasure2/capability/KeyRingCapabilityStorage.java:37-56 | writing one instance and reading into another copies the open flag |
| AdornmentProvider.AdornmentCapabilityProvider.constructor | src/main/java/com/someguyssoftware/treasure2/capability/AdornmentCapabilityProvider.java:15-19 | fresh capabilities: charmable (0,0,0), durability (100,100), runestones (0,0,0) |
| AdornmentProvider.AdornmentCapabilityProvider.WithCharmable | src/main/java/com/someguyssoftware/treasure2/capability/AdornmentCapabilityProvider.java:22-26 | the given charm capability with a fresh default durability and runestones |
| AdornmentProvider.AdornmentCapabilityProvider.WithDurability | src/main/java/com/someguyssoftware/treasure2/capability/AdornmentCapabilityProvider.java:28-32 | the given charm and durability capabilities with fresh empty runestones |
| AdornmentProvider.AdornmentCapabilityProvider.WithAll | src/main/java/com/someguyssoftware/treasure2/capability/AdornmentCapabilityProvider.java:34-38 | holds exactly the three given capabilities |
| AdornmentProvider.AdornmentCapabilityProvider.GetCapability | src/main/java/com/someguyssoftware/treasure2/capability/AdornmentCapabilityProvider.java:55-66 | each of the three keys yields its own held capability, and any other key yields null |
| AdornmentProvider.AdornmentCapabilityProvider.HasIffServed | src/main/java/com/someguyssoftware/treasure2/capability/AdornmentCapabilityProvider.java:41-66 | hasCapability is true exactly for the keys getCapability serves |
| AdornmentProvider.AdornmentCapabilityProvider.SerializeNbt | src/main/java/com/someguyssoftware/treasure2/capability/AdornmentCapabilityProvider.java:69-78 | the tag has exactly the keys charmable, runestones, durability, each holding its storage's compound |
| AdornmentProvider.AdornmentCapabilityProvider.DeserializeNbt | src/main/java/com/someguyssoftware/treasure2/capability/AdornmentCapabilityProvider.java:81-94 | only capabilities whose key is present are read, from that key's compound; the others keep their state |
| AdornmentProvider.AdornmentCapabilityProvider.CopyThroughNbt | src/main/java/com/someguyssoftware/treasure2/capability/AdornmentCapabilityProvider.java:69-94 | with storages whose read inverts write, serialising one provider into another copies all three states |
| LockItems.LockItem.constructor | src/main/java/com/someguyssoftware/treasure2/item/LockItem.java:63-68 | a new lock is BASIC, COMMON, not craftable, with no keys |
| LockItems.LockItem.WithKeys | src/main/java/com/someguyssoftware/treasure2/item/LockItem.java:54-57 | the same defaults, with the given keys appended in order to the empty key list |
| LockItems.LockItem.AcceptsKey | src/main/java/com/someguyssoftware/treasure2/item/LockItem.java:169-175 | true exactly when this key object is in the key list |
| LockItems.LockItem.SetRarity | src/main/java/com/someguyssoftware/treasure2/item/LockItem.java:187-190 | sets the rarity only and returns the same lock |
| LockItems.LockItem.SetCraftable | src/main/java/com/someguyssoftware/treasure2/item/LockItem.java:202-205 | sets the craftable flag only and returns the same lock |
| LockItems.LockItem.SetKeys | src/main/java/com/someguyssoftware/treasure2/item/LockItem.java:217-220 | replaces the key list only and returns the same lock |
| LockItems.LockItem.SetCategory | src/main/java/com/someguyssoftware/treasure2/item/LockItem.java:243-246 | sets the category only and returns the same lock |
| TreasureRunes.ListedUnderOwnRarity | src/main/java/com/someguyssoftware/treasure2/runestone/TreasureRunes.java:135-137 | in a valid registry, containsValue over all rarities is the same as membership in the runestone's own rarity list |
| TreasureRunes.RegisteredFacts | src/main/java/com/someguyssoftware/treasure2/runestone/TreasureRunes.java:130-138 | register keeps the registry valid; a taken name keeps its runestone; a new runestone is appended once at the end of its rarity's list; other rarities and the item map are unchanged |
| TreasureRunes.RegisteredFresh | src/main/java/com/someguyssoftware/treasure2/runestone/TreasureRunes.java:130-138 | a runestone with a free name that is not yet listed is added to both registries |
| TreasureRunes.InitialContents | src/main/java/com/someguyssoftware/treasure2/runestone/TreasureRunes.java:66-124 | the static initialiser leaves the eight names registered; mana and durability are SCARCE; quality, equip-as-mana and sockets are RARE; anvil and persistence are EPIC; angels is LEGENDARY; each list keeps registration order |
| TreasureRunes.InitialValid | src/main/java/com/someguyssoftware/treasure2/runestone/TreasureRunes.java:66-124 | the initial registries satisfy the registry invariant |
| TreasureRunes.TreasureRunes.constructor | src/main/java/com/someguyssoftware/treasure2/runestone/TreasureRunes.java:66-124 | registering the eight runestones one by one yields the initial table and a valid registry |
| TreasureRunes.ListedUnderExactly | src/main/java/com/someguyssoftware/treasure2/runestone/TreasureRunes.java:147-149 | in a valid registry, a rarity's list holds exactly the listed runestones of that rarity |
| TreasureRunes.TreasureRunes.Register | src/main/java/com/someguyssoftware/treasure2/runestone/TreasureRunes.java:130-138 | the registries become the registered value of the old ones and stay valid; a new runestone is appended to getByRarity of its rarity, and every other rarity's list is unchanged |
| TreasureRunes.TreasureRunes.Get | src/main/java/com/someguyssoftware/treasure2/runestone/TreasureRunes.java:140-145 | present exactly when the name is registered, holding the runestone of that name |
| TreasureRunes.TreasureRunes.GetByRarity | src/main/java/com/someguyssoftware/treasure2/runestone/TreasureRunes.java:147-149 | a list without duplicates holding exactly the listed runestones of the asked rarity, in registration order (see Register) |
| TreasureRunes.TreasureRunes.RegisterItem | src/main/java/com/someguyssoftware/treasure2/runestone/TreasureRunes.java:159-164 | the first item mapped to a runestone stays; the name and rarity registries are unchanged |
| TreasureRunes.TreasureRunes.GetItem | src/main/java/com/someguyssoftware/treasure2/runestone/TreasureRunes.java:166-168 | present exactly when the runestone is mapped, holding its item |
| CharmRandomly.MinorCharmsSpec | src/main/java/com/someguyssoftware/treasure2/loot/function/CharmRandomly.java:120-124 | the default list holds exactly the registered charms of level 1 or 2 |
| CharmRandomly.DefaultPoolIsMinorCharms | src/main/java/com/someguyssoftware/treasure2/loot/function/CharmRandomly.java:118-125 | with no listed charms and no levels, the pool is exactly the registered minor charms |
| CharmRandomly.ListedCharmsAlwaysChosen | src/main/java/com/someguyssoftware/treasure2/loot/function/CharmRandomly.java:133-148 | with listed charms, every listed charm is in the pool and a charm is always chosen |
| CharmRandomly.Selected | src/main/java/com/someguyssoftware/treasure2/loot/function/CharmRandomly.java:108-149 | for any level the range can generate, the minimum of an inverted range included, a charm is chosen exactly when the pool is non-empty, and it comes from the pool |
| CharmRandomly.AddedAtMostOne | src/main/java/com/someguyssoftware/treasure2/loot/function/CharmRandomly.java:150-165 | the existing entities stay in order; at most one is appended, and one is appended exactly when a charm was chosen and none clashes with it |
| CharmRandomly.ConflictsSymmetric | src/main/java/com/someguyssoftware/treasure2/loot/function/CharmRandomly.java:155-156 | the same-type-ignoring-case-or-same-name test is symmetric |
| CharmRandomly.AddedKeepsCompatible | src/main/java/com/someguyssoftware/treasure2/loot/function/CharmRandomly.java:150-165 | if no two entities of a stack clash, none do after apply |
| CharmRandomly.Apply | src/main/java/com/someguyssoftware/treasure2/loot/function/CharmRandomly.java:89-169 | returns the same stack; without a charm inventory nothing changes; otherwise the inventory becomes the old one with the chosen charm added unless it clashes |
| Json.Strings | src/main/java/com/someguyssoftware/treasure2/loot/function/CharmRandomly.java:186-189 | the written names array holds one JSON string per name, in order, and each element reads back as its name |
| CharmRandomly.Serialize | src/main/java/com/someguyssoftware/treasure2/loot/function/CharmRandomly.java:184-192 | writes a charms array of the names in list order only when the list is non-empty, and nothing else |
| CharmRandomly.FirstOfEachTypeTypes | src/main/java/com/someguyssoftware/treasure2/loot/function/CharmRandomly.java:199-221 | the kept charms have pairwise different types and cover every type read |
| CharmRandomly.FirstOfEachTypeFirst | src/main/java/com/someguyssoftware/treasure2/loot/function/CharmRandomly.java:199-221 | each kept charm is the first charm of its type in input order |
| CharmRandomly.FirstOfEachTypeOfDistinct | src/main/java/com/someguyssoftware/treasure2/loot/function/CharmRandomly.java:199-221 | a list whose types are already different is kept whole |
| CharmRandomly.ResolveErrPersists | src/main/java/com/someguyssoftware/treasure2/loot/function/CharmRandomly.java:207-222 | once an element fails, the whole array fails with the same exception |
| Json.GetString | src/main/java/com/someguyssoftware/treasure2/loot/function/CharmRandomly.java:209 | a string, number or boolean element gives its text, a number's text reading back as the number; null, an array or an object is a JsonSyntaxException |
| CharmRandomly.Deserialize | src/main/java/com/someguyssoftware/treasure2/loot/function/CharmRandomly.java:197-225 | the loop's result equals the deserialised value: the levels read, then the first charm of each type among the known names, a number or boolean element naming the charm of its text |
| CharmRandomly.UnknownCharmFails | src/main/java/com/someguyssoftware/treasure2/loot/function/CharmRandomly.java:209-221 | one unknown name makes the code as written throw NoSuchElementException, while the corrected reading yields no charms |
| CharmRandomly.ResolveNames | src/main/java/com/someguyssoftware/treasure2/loot/function/CharmRandomly.java:186-210 | the written names resolve back to the charms when each is registered under its name |
| CharmRandomly.SerializeDropsLevels | src/main/java/com/someguyssoftware/treasure2/loot/function/CharmRandomly.java:184-205 | a levels range without listed charms is lost through serialize and deserialize |
| CharmRandomly.SerializeWithLevels | src/main/java/com/someguyssoftware/treasure2/loot/function/CharmRandomly.java:184-192 | the corrected serialiser also writes the range under levels |
| CharmRandomly.RoundTrip | src/main/java/com/someguyssoftware/treasure2/loot/function/CharmRandomly.java:184-225 | deserialising the corrected serialisation gives back the loot function when its charms are registered and of different types |
| Ranges.GeneratesWithin | src/main/java/com/someguyssoftware/treasure2/loot/function/RandomAdornment.java:89 | every range, an inverted one included, can generate its minimum, and generates nothing below it |
| RandomAdornment.Clamped | src/main/java/com/someguyssoftware/treasure2/loot/function/RandomAdornment.java:101-103 | the drawn level when it is within the material's maximum, and exactly that maximum when the drawn level exceeds it |
| RandomAdornment.ConfiguredMaterialChosen | src/main/java/com/someguyssoftware/treasure2/loot/function/RandomAdornment.java:93-98 | with a configured non-empty list the chosen material is an element of that list |
| RandomAdornment.WithMaxLevelMembers | src/main/java/com/someguyssoftware/treasure2/loot/function/RandomAdornment.java:108-116 | the candidates are exactly the material's adornments whose max charm level equals the level |
| RandomAdornment.WithMaxLevelAppend | src/main/java/com/someguyssoftware/treasure2/loot/function/RandomAdornment.java:108-116 | the filter keeps registry order |
| RandomAdornment.Apply | src/main/java/com/someguyssoftware/treasure2/loot/function/RandomAdornment.java:85-128 | apply fails exactly when no material can be chosen: no charmable capability, an unknown base material, or an empty list |
| RandomAdornment.ApplyOutcome | src/main/java/com/someguyssoftware/treasure2/loot/function/RandomAdornment.java:85-128 | the input stack comes back exactly when no adornment of the material has the clamped level; otherwise a new stack of such an adornment |
| RandomAdornment.Serialize | src/main/java/com/someguyssoftware/treasure2/loot/function/RandomAdornment.java:143-155 | levels is always written, as JSON null without a range; materials only when present, as names in order |
| RandomAdornment.KnownErrPersists | src/main/java/com/someguyssoftware/treasure2/loot/function/RandomAdornment.java:173-185 | once an element is not a JSON primitive, the whole array fails with JsonSyntaxException |
| RandomAdornment.Deserialize | src/main/java/com/someguyssoftware/treasure2/loot/function/RandomAdornment.java:160-191 | the loop's result equals the deserialised value: the levels read, known materials in input order (a number or boolean element names the material of its text), and no list when none is known |
| RandomAdornment.KnownNames | src/main/java/com/someguyssoftware/treasure2/loot/function/RandomAdornment.java:149-180 | written material names read back as the materials when each is registered under its name |
| RandomAdornment.RoundTrip | src/main/java/com/someguyssoftware/treasure2/loot/function/RandomAdornment.java:143-191 | deserialize inverts serialize for registered materials; an empty list reads back as no list |
| AnvilEventHandler.KeyMerged | src/main/java/com/someguyssoftware/treasure2/eventhandler/AnvilEventHandler.java:78-100 | the output is the left key; when the summed uses fit, durability is the min or the max and the output's uses left equal the sum, with damage ≥ 0; otherwise durability is max + left max damage and the damages add |
| AnvilEventHandler.Transferred | src/main/java/com/someguyssoftware/treasure2/eventhandler/AnvilEventHandler.java:243-293 | a stack is returned exactly when the charm or rune count of the target inventory grew; it is a new stack of dest's item carrying dest's durability and the transferred inventories |
| AnvilEventHandler.TransferCapabilities | src/main/java/com/someguyssoftware/treasure2/eventhandler/AnvilEventHandler.java:243-293 | the step-by-step construction with size-change flags yields the transfer result |
| AnvilEventHandler.Copied | src/main/java/com/someguyssoftware/treasure2/eventhandler/AnvilEventHandler.java:315-343 | dest's item with source's damage (negative stored as 0) and source's capabilities over dest's cleared ones, keeping dest's source item |
| AnvilEventHandler.CopiedDurability | src/main/java/com/someguyssoftware/treasure2/eventhandler/AnvilEventHandler.java:324-327 | when durability copyTo copies all four numbers, the copy has source's durability |
| AnvilEventHandler.CopyStack | src/main/java/com/someguyssoftware/treasure2/eventhandler/AnvilEventHandler.java:315-343 | the step-by-step copy yields the copied stack |
| AnvilEventHandler.AppliedAll | src/main/java/com/someguyssoftware/treasure2/eventhandler/AnvilEventHandler.java:139-143 | applying the runestones keeps the stack's item and its set of capabilities |
| AnvilEventHandler.ApplyRunes | src/main/java/com/someguyssoftware/treasure2/eventhandler/AnvilEventHandler.java:139-143 | the loop applies every runestone in list order |
| AnvilEventHandler.BoundValid | src/main/java/com/someguyssoftware/treasure2/eventhandler/AnvilEventHandler.java:157-181 | the validity flag stays set exactly when every runestone was valid for the stack at the moment it was visited |
| AnvilEventHandler.BoundKeepsCaps | src/main/java/com/someguyssoftware/treasure2/eventhandler/AnvilEventHandler.java:157-180 | visiting runestones keeps the stack's item and capabilities, and an applied runestone stays recorded |
| AnvilEventHandler.BindRunes | src/main/java/com/someguyssoftware/treasure2/eventhandler/AnvilEventHandler.java:157-180 | invalid runestones clear the flag and are skipped; valid ones are applied; reading the charm capability of a stack that has none throws |
| AnvilEventHandler.RuleFor | src/main/java/com/someguyssoftware/treasure2/eventhandler/AnvilEventHandler.java:69-232 | the chosen rule's guard holds, and no earlier rule's guard holds |
| AnvilEventHandler.RuleForIsFirst | src/main/java/com/someguyssoftware/treasure2/eventhandler/AnvilEventHandler.java:69-232 | the first rule in order whose guard holds is the chosen one |
| AnvilEventHandler.KeysOnlyMerge | src/main/java/com/someguyssoftware/treasure2/eventhandler/AnvilEventHandler.java:69-104 | two stacks of the same key are handled only by the key rule: cost 1 and an output of the key when both have durability, otherwise nothing |
| AnvilEventHandler.BindingNeedsGrowth | src/main/java/com/someguyssoftware/treasure2/eventhandler/AnvilEventHandler.java:106-185 | the bind and imbue rules cost 2 and set an output only when the target inventory grew |
| AnvilEventHandler.RuneBindNeedsValidRunes | src/main/java/com/someguyssoftware/treasure2/eventhandler/AnvilEventHandler.java:155-184 | a runestone output is set only if every socketed runestone was valid when visited |
| AnvilEventHandler.GemOutput | src/main/java/com/someguyssoftware/treasure2/eventhandler/AnvilEventHandler.java:200-203 | the gem output is a stack of the registry's adornment with the left adornment's damage and highest level and the new adornment's own source item |
| AnvilEventHandler.GemEffect | src/main/java/com/someguyssoftware/treasure2/eventhandler/AnvilEventHandler.java:187-206 | an output exists exactly when the adornment has no source item and the registry has an adornment for the gem; nothing is thrown |
| AnvilEventHandler.GemWithoutAdornment | src/main/java/com/someguyssoftware/treasure2/eventhandler/AnvilEventHandler.java:192-199 | a gem without a registered adornment throws as written, and sets only the costs as intended |
| AnvilEventHandler.Repaired | src/main/java/com/someguyssoftware/treasure2/eventhandler/AnvilEventHandler.java:221-228 | the repaired stack has no damage and one repair fewer than the copy |
| AnvilEventHandler.RepairRule | src/main/java/com/someguyssoftware/treasure2/eventhandler/AnvilEventHandler.java:214-232 | cost 1 and material cost 1; with a full durability copy, an output exists exactly when the left adornment has repairs and damage, with damage 0 and one repair fewer |
| AnvilEventHandler.OnAnvilUpdate | src/main/java/com/someguyssoftware/treasure2/eventhandler/AnvilEventHandler.java:63-233 | the event's cost, material cost and output are set by the effect of the first rule whose guard holds, and the thrown exception is returned |

## Left out

- Logging, tooltips, I18n and `toString` are not modelled (`LockItem.addInformation`, the debug
  lines of the anvil handler). A debug line that throws is kept: line 111 of the anvil handler
  and the charm reads in the rune-bind loop.
- The distribution of `Random` is not modelled. Levels and indices are caller-supplied draws
  within their bounds. `RandomAdornment` draws from a second `Random` of its own; that makes no
  difference to the model.
- The engine's capability internals are not part of this model, so they are parameters:
  `copyTo`, `transferTo`, `clearCharms`, `clear`, `Runestone.apply` and
  `Runestone.isValid`. The same goes for the registries `TreasureCharmRegistry`,
  `TreasureCharmableMaterials`, `TreasureAdornmentRegistry` and the adornments by material.
- `ResourceLocation` name normalisation (namespace and lower case) is not part of this model.
  Names are plain strings, and the registry lookups stand for it.
- CharmRandomly.EqualsIgnoreCase: folds ASCII letters only, while Java's `String.equalsIgnoreCase`
  folds all of Unicode. The model has no Unicode case tables.
- TreasureAdornments is not part of this model: it does not compile as published.
  RandomAdornment reads "adornments by material" as an opaque function.
- ReflectionCharm, TemplateLocationArgument, IEquipmentCharmHandler, StandardChestModel and
  TreasureLootTables are not part of this model. They hold world queries, a stub, an interface,
  rendering and file I/O.
- `TreasureRunes.values()` is not modelled. Its cast of a map's values to a list fails at run time.
- DurabilityRune.Undo: requires a durability capability. The source reads the capability
  without a check and throws NullPointerException on a stack without one.
- DurabilityRune.Apply: does not model int overflow. `Math.round(n * 1.25)` returns a long,
  and the `(int)` cast wraps it to a negative durability for values above about 1.7 billion.
- DurabilityRune.Apply: the durability capability's setters are modelled as plain assignments.
  The capability class is not part of this model, so a clamp to the max durability is not modelled.
- AnvilEventHandler.KeyMerged: does not model 32-bit overflow of the summed uses or of
  max + max damage, because the model's integers are unbounded.
- AnvilEventHandler.OnAnvilUpdate: requires well-formed stacks and a valid engine. A stack
  carries exactly the capabilities its item attaches, and capabilities are never detached, so
  the engine cannot produce the other stacks.
- AnvilEventHandler.RepairRule: relates the output's repairs to the left adornment's only
  for a durability `copyTo` that copies all four numbers. Without that, `Repaired` relates them
  to the copied capability.
- The anvil handler's `getAdornment` guard is folded into the gem rule's guard, which already
  requires a charmable adornment. `AnvilUpdateEvent` is reduced to its two stacks, cost,
  material cost and output. `doKeyMerge` and the mod accessors are not modelled.
- RandomAdornment.Deserialize: the one-argument constructor leaves both fields null, and
  `serialize` then throws on the null materials. The model has only the full constructor, with
  no list standing for both null and `Optional.empty()`.
- The rune inventories are walked over the list as it was when the walk started; `apply`
  changes the entities, not the list.
- Ranges.RandomValueRange: the engine's bounds are floats, and `generateInt` floors them. The
  model holds the floored integer bounds, so a JSON range with fractional bounds is not modelled.
- Json.GetString: a number's text is its integer value in decimal. gson returns the literal as
  written, so `3.0`, `1e2` and `03` are not modelled, and neither are fractional numbers.
- AnvilEventHandler.KeyMerged: `setDurability` is modelled as a plain assignment. The durability
  capability class is not part of this model. If its setter cuts the value off at the max
  durability, as the comment in `DurabilityRune` says, the overflow branch's max + max damage
  would be clamped.
- LockItems.LockItem.SetKeys: the key list is a value. In the source `setKeys` stores the
  caller's list and `getKeys` hands it out by reference, so a later `add` to that list changes
  the lock's keys. The model does not capture that aliasing.
- TreasureRunes.TreasureRunes.GetByRarity: returns the list as a value. In the source it is a
  live view of the multimap, so later registrations show through it. The model does not capture
  that aliasing.

## Findings

| source | as written | input that shows it | evidently intended | confidence | as-written member | corrected member |
|---|---|---|---|---|---|---|
| src/main/java/com/someguyssoftware/treasure2/eventhandler/AnvilEventHandler.java:197-199 | the debug line calls `adornment.get()` before `adornment.isPresent()` is checked | a left adornment with no source item, and a gem for which the adornment registry has no adornment: NoSuchElementException | no output; the costs stay set | high, not executed | AnvilEventHandler.GemWithoutAdornment | AnvilEventHandler.GemEffect |
| src/main/java/com/someguyssoftware/treasure2/loot/function/CharmRandomly.java:212-220 | an unknown charm name is logged, then `charm.get()` throws | `{"charms": ["x"]}` with no charm named x: NoSuchElementException instead of a loot function | skip the unknown name, as RandomAdornment does for materials | high, not executed | CharmRandomly.UnknownCharmFails | CharmRandomly.Deserialize |
| src/main/java/com/someguyssoftware/treasure2/loot/function/CharmRandomly.java:184-192 | serialize never writes the levels range that deserialize reads | a loot function with no listed charms and levels 1..3 serialises to `{}` and reads back without levels, so it draws minor charms instead | write the range under "levels", as RandomAdornment does | medium, not executed | CharmRandomly.SerializeDropsLevels | CharmRandomly.SerializeWithLevels |
