/**
 * AnvilEventHandler.onAnvilUpdate: the rules that combine the left and right stacks of an anvil
 * into an output (merge keys, bind a charm, imbue a charm, bind a runestone, set a gem, repair an
 * adornment), tried in that order, and its helpers transferCapabilities and copyStack.
 */
module AnvilEventHandler {
  import opened Wrappers
  import opened Enums
  import opened Stacks

  function Max(a: int, b: int): int { if a >= b then a else b }
  function Min(a: int, b: int): int { if a <= b then a else b }

  // ---------------------------------------------------------------------------------------
  // Key merge

  /** Uses left on a stack with a durability capability: its durability minus its item damage. */
  function RemainingUses(s: Stack): int
    requires s.caps.durability.Some?
  {
    s.caps.durability.value.durability - s.damage
  }

  /** setDurability on the stack's durability capability. */
  function SetDurability(s: Stack, durability: int): (r: Stack)
    requires s.caps.durability.Some?
    ensures r.caps.durability.Some? && r.caps.durability.value.durability == durability
  {
    s.(caps := s.caps.(durability := Some(s.caps.durability.value.(durability := durability))))
  }

  /**
   * The merged key: a new stack of the left key whose uses left are the sum of both keys' uses
   * left. When that sum exceeds the larger durability, the durability grows by the left key's
   * max damage and the damages add up instead.
   */
  function KeyMerged(left: Stack, right: Stack): (out: Stack)
    requires WellFormed(left) && WellFormed(right)
    requires left.caps.durability.Some? && right.caps.durability.Some?
    ensures out.item == left.item && out.caps.durability.Some?
    ensures var l := left.caps.durability.value.durability;
            var r := right.caps.durability.value.durability;
            var sum := RemainingUses(left) + RemainingUses(right);
            && (sum <= Max(l, r) ==>
                  && out.caps.durability.value.durability == (if sum < Min(l, r) then Min(l, r) else Max(l, r))
                  && out.damage >= 0
                  && RemainingUses(out) == sum)
            && (sum > Max(l, r) ==>
                  && out.caps.durability.value.durability == Max(l, r) + left.item.maxDamage
                  && out.damage == left.damage + right.damage)
  {
    var l := left.caps.durability.value.durability;
    var r := right.caps.durability.value.durability;
    var remaining := RemainingUses(left) + RemainingUses(right);
    var output := NewStack(left.item);
    if remaining > Max(l, r) then
      SetItemDamage(SetDurability(output, Max(l, r) + left.item.maxDamage), left.damage + right.damage)
    else
      var durability := if remaining < Min(l, r) then Min(l, r) else Max(l, r);
      SetItemDamage(SetDurability(output, durability), durability - remaining)
  }

  // ---------------------------------------------------------------------------------------
  // transferCapabilities

  /** The charm capability of the new stack: cleared, given dest's charms, then source's. */
  function TransferredCharms(engine: Engine, source: Stack, dest: Stack, sourceType: InventoryType, destType: InventoryType): CharmableCap
    requires dest.caps.charmable.Some? && dest.item.initial.charmable.Some?
  {
    var copied := engine.charmCopyTo(dest.caps.charmable.value, engine.charmClear(dest.item.initial.charmable.value));
    if source.caps.charmable.Some? then engine.charmTransferTo(source.caps.charmable.value, copied, sourceType, destType) else copied
  }

  /** The rune capability of the new stack: cleared, given dest's runes, then source's. */
  function TransferredRunes(engine: Engine, source: Stack, dest: Stack, sourceType: InventoryType, destType: InventoryType): RunestonesCap
    requires dest.caps.runestones.Some? && dest.item.initial.runestones.Some?
  {
    var copied := engine.runeCopyTo(dest.caps.runestones.value, engine.runeClear(dest.item.initial.runestones.value));
    if source.caps.runestones.Some? then engine.runeTransferTo(source.caps.runestones.value, copied, sourceType, destType) else copied
  }

  /** Both stacks are charmable and the new stack holds more charms of destType than dest. */
  predicate CharmsGrew(engine: Engine, source: Stack, dest: Stack, sourceType: InventoryType, destType: InventoryType)
    requires SameCaps(dest.caps, dest.item.initial)
  {
    dest.caps.charmable.Some? && source.caps.charmable.Some? &&
    CharmSize(TransferredCharms(engine, source, dest, sourceType, destType), destType) > CharmSize(dest.caps.charmable.value, destType)
  }

  /** Both stacks carry runestones and the new stack holds more runes of destType than dest. */
  predicate RunesGrew(engine: Engine, source: Stack, dest: Stack, sourceType: InventoryType, destType: InventoryType)
    requires SameCaps(dest.caps, dest.item.initial)
  {
    dest.caps.runestones.Some? && source.caps.runestones.Some? &&
    RuneSize(TransferredRunes(engine, source, dest, sourceType, destType), destType) > RuneSize(dest.caps.runestones.value, destType)
  }

  /**
   * transferCapabilities as a value: a new stack of dest's item carrying dest's durability and
   * dest's charms and runes plus those source transfers, present only if an inventory grew.
   */
  function Transferred(engine: Engine, source: Stack, dest: Stack, sourceType: InventoryType, destType: InventoryType): (r: Option<Stack>)
    requires SameCaps(dest.caps, dest.item.initial)
    ensures r.Some? <==> CharmsGrew(engine, source, dest, sourceType, destType) || RunesGrew(engine, source, dest, sourceType, destType)
    ensures r.Some? ==> r.value.item == dest.item && r.value.damage == 0 && SameCaps(r.value.caps, dest.caps)
    ensures r.Some? && dest.caps.durability.Some? ==>
              r.value.caps.durability == Some(engine.durabilityCopyTo(dest.caps.durability.value, dest.item.initial.durability.value))
    ensures r.Some? && dest.caps.charmable.Some? ==>
              r.value.caps.charmable == Some(TransferredCharms(engine, source, dest, sourceType, destType))
    ensures r.Some? && dest.caps.runestones.Some? ==>
              r.value.caps.runestones == Some(TransferredRunes(engine, source, dest, sourceType, destType))
  {
    var newStack := NewStack(dest.item);
    var durability :=
      if dest.caps.durability.Some? then Some(engine.durabilityCopyTo(dest.caps.durability.value, newStack.caps.durability.value))
      else newStack.caps.durability;
    var charms :=
      if dest.caps.charmable.Some? then Some(TransferredCharms(engine, source, dest, sourceType, destType)) else newStack.caps.charmable;
    var runes :=
      if dest.caps.runestones.Some? then Some(TransferredRunes(engine, source, dest, sourceType, destType)) else newStack.caps.runestones;
    if CharmsGrew(engine, source, dest, sourceType, destType) || RunesGrew(engine, source, dest, sourceType, destType) then
      Some(Stack(dest.item, 0, Caps(durability, charms, runes)))
    else None
  }

  /**
   * transferCapabilities: builds a new stack of dest's item step by step and returns it only if
   * the charm or rune inventory of destType grew; dest itself is a value and stays as it was.
   */
  method TransferCapabilities(source: Stack, dest: Stack, sourceType: InventoryType, destType: InventoryType, engine: Engine)
    returns (r: Option<Stack>)
    requires SameCaps(dest.caps, dest.item.initial)
    ensures r == Transferred(engine, source, dest, sourceType, destType)
  {
    var stack := NewStack(dest.item);
    if dest.caps.durability.Some? {
      stack := stack.(caps := stack.caps.(durability := Some(engine.durabilityCopyTo(dest.caps.durability.value, stack.caps.durability.value))));
    }
    var charmSizeChanged := false;
    var runeSizeChanged := false;
    if dest.caps.charmable.Some? {
      var charms := engine.charmClear(stack.caps.charmable.value);
      charms := engine.charmCopyTo(dest.caps.charmable.value, charms);
      if source.caps.charmable.Some? {
        charms := engine.charmTransferTo(source.caps.charmable.value, charms, sourceType, destType);
        if CharmSize(charms, destType) > CharmSize(dest.caps.charmable.value, destType) {
          charmSizeChanged := true;
        }
      }
      stack := stack.(caps := stack.caps.(charmable := Some(charms)));
    }
    assert charmSizeChanged == CharmsGrew(engine, source, dest, sourceType, destType);
    if dest.caps.runestones.Some? {
      var runes := engine.runeClear(stack.caps.runestones.value);
      runes := engine.runeCopyTo(dest.caps.runestones.value, runes);
      if source.caps.runestones.Some? {
        runes := engine.runeTransferTo(source.caps.runestones.value, runes, sourceType, destType);
        if RuneSize(runes, destType) > RuneSize(dest.caps.runestones.value, destType) {
          runeSizeChanged := true;
        }
      }
      stack := stack.(caps := stack.caps.(runestones := Some(runes)));
    }
    assert runeSizeChanged == RunesGrew(engine, source, dest, sourceType, destType);
    if charmSizeChanged || runeSizeChanged {
      return Some(stack);
    }
    return None;
  }

  // ---------------------------------------------------------------------------------------
  // copyStack

  /** What copyStack reads from source: every capability dest has, and dest's charmable capability. */
  predicate CopyableTo(source: Stack, dest: Stack) {
    dest.caps.charmable.Some? &&
    (dest.caps.durability.Some? ==> source.caps.durability.Some?) &&
    (dest.caps.charmable.Some? ==> source.caps.charmable.Some?) &&
    (dest.caps.runestones.Some? ==> source.caps.runestones.Some?)
  }

  /**
   * copyStack as a value: dest's item with source's damage and source's capabilities copied
   * over dest's cleared ones, keeping dest's own source item.
   */
  function Copied(engine: Engine, source: Stack, dest: Stack): (r: Stack)
    requires CopyableTo(source, dest)
    ensures r.item == dest.item && SameCaps(r.caps, dest.caps)
    ensures r.damage == Max(source.damage, 0)
    ensures r.caps.charmable.value.sourceItem == dest.caps.charmable.value.sourceItem
    ensures r.caps.charmable.value
            == engine.charmCopyTo(source.caps.charmable.value, engine.charmClear(dest.caps.charmable.value))
                 .(sourceItem := dest.caps.charmable.value.sourceItem)
    ensures dest.caps.durability.Some? ==>
              r.caps.durability == Some(engine.durabilityCopyTo(source.caps.durability.value, dest.caps.durability.value))
    ensures dest.caps.runestones.Some? ==>
              r.caps.runestones == Some(engine.runeCopyTo(source.caps.runestones.value, engine.runeClear(dest.caps.runestones.value)))
  {
    var sourceItem := dest.caps.charmable.value.sourceItem;
    var damaged := SetItemDamage(dest, source.damage);
    var durability :=
      if dest.caps.durability.Some? then Some(engine.durabilityCopyTo(source.caps.durability.value, dest.caps.durability.value))
      else None;
    var charms := engine.charmCopyTo(source.caps.charmable.value, engine.charmClear(dest.caps.charmable.value));
    var runes :=
      if dest.caps.runestones.Some? then Some(engine.runeCopyTo(source.caps.runestones.value, engine.runeClear(dest.caps.runestones.value)))
      else None;
    damaged.(caps := Caps(durability, Some(charms.(sourceItem := sourceItem)), runes))
  }

  /** With a durability copyTo that copies all four numbers, copyStack carries source's durability over. */
  lemma CopiedDurability(engine: Engine, source: Stack, dest: Stack)
    requires CopyableTo(source, dest) && CopiesDurability(engine) && dest.caps.durability.Some?
    ensures Copied(engine, source, dest).caps.durability == source.caps.durability
  {
  }

  /** copyStack: copies dest, then source's damage and capabilities into the copy, then restores the source item. */
  method CopyStack(source: Stack, dest: Stack, engine: Engine) returns (resultStack: Stack)
    requires CopyableTo(source, dest)
    ensures resultStack == Copied(engine, source, dest)
  {
    resultStack := dest;
    var sourceItem := resultStack.caps.charmable.value.sourceItem;
    resultStack := SetItemDamage(resultStack, source.damage);
    if resultStack.caps.durability.Some? {
      var durability := engine.durabilityCopyTo(source.caps.durability.value, resultStack.caps.durability.value);
      resultStack := resultStack.(caps := resultStack.caps.(durability := Some(durability)));
    }
    if dest.caps.charmable.Some? {
      var charms := engine.charmCopyTo(source.caps.charmable.value, engine.charmClear(resultStack.caps.charmable.value));
      resultStack := resultStack.(caps := resultStack.caps.(charmable := Some(charms)));
    }
    if dest.caps.runestones.Some? {
      var runes := engine.runeCopyTo(source.caps.runestones.value, engine.runeClear(resultStack.caps.runestones.value));
      resultStack := resultStack.(caps := resultStack.caps.(runestones := Some(runes)));
    }
    resultStack := resultStack.(caps := resultStack.caps.(charmable := Some(resultStack.caps.charmable.value.(sourceItem := sourceItem))));
  }

  // ---------------------------------------------------------------------------------------
  // Applying the runestones of an output

  /** Each runestone applied to the stack in turn (the forEach of the charm-bind and imbue rules). */
  function AppliedAll(engine: Engine, entities: seq<RuneEntity>, stack: Stack): (r: Stack)
    ensures ValidEngine(engine) ==> r.item == stack.item && SameCaps(r.caps, stack.caps)
    decreases |entities|
  {
    if entities == [] then stack
    else engine.runeApply(entities[|entities| - 1], AppliedAll(engine, entities[..|entities| - 1], stack))
  }

  /** Applies each runestone entity to the stack, in list order. */
  method ApplyRunes(engine: Engine, entities: seq<RuneEntity>, stack: Stack) returns (out: Stack)
    ensures out == AppliedAll(engine, entities, stack)
  {
    out := stack;
    var i := 0;
    while i < |entities|
      invariant 0 <= i <= |entities|
      invariant out == AppliedAll(engine, entities[..i], stack)
    {
      assert entities[..i + 1][..i] == entities[..i];
      out := engine.runeApply(entities[i], out);
      i := i + 1;
    }
    assert entities[..i] == entities;
  }

  /** The state of the rune-bind forEach: the stack, the isStackValid flag, and whether a rune was applied. */
  datatype Binding = Binding(stack: Stack, valid: bool, anyApplied: bool)

  /**
   * The rune-bind forEach: an invalid runestone clears the flag and is skipped (the lambda's
   * return), a valid one is applied to the stack; later runestones are still visited.
   */
  function Bound(engine: Engine, entities: seq<RuneEntity>, stack: Stack): Binding
    decreases |entities|
  {
    if entities == [] then Binding(stack, true, false)
    else
      var prior := Bound(engine, entities[..|entities| - 1], stack);
      var entity := entities[|entities| - 1];
      if engine.runeValid(entity, prior.stack) then Binding(engine.runeApply(entity, prior.stack), prior.valid, true)
      else prior.(valid := false)
  }

  /** Each runestone was valid for the stack at the moment the forEach visited it. */
  predicate AllValid(engine: Engine, entities: seq<RuneEntity>, stack: Stack) {
    forall i :: 0 <= i < |entities| ==> engine.runeValid(entities[i], Bound(engine, entities[..i], stack).stack)
  }

  /** All runestones were valid when visited exactly when all but the last were and the last one was too. */
  lemma AllValidSnoc(engine: Engine, entities: seq<RuneEntity>, stack: Stack)
    requires entities != []
    ensures var n := |entities| - 1;
            AllValid(engine, entities, stack) <==>
              AllValid(engine, entities[..n], stack) && engine.runeValid(entities[n], Bound(engine, entities[..n], stack).stack)
  {
    var n := |entities| - 1;
    var init := entities[..n];
    forall i | 0 <= i < n ensures entities[..i] == init[..i] && entities[i] == init[i] {}
  }

  /** The flag stays set exactly when every runestone was valid for the stack at the moment it was visited. */
  lemma {:induction false} BoundValid(engine: Engine, entities: seq<RuneEntity>, stack: Stack)
    ensures Bound(engine, entities, stack).valid <==> AllValid(engine, entities, stack)
    decreases |entities|
  {
    if entities != [] {
      var n := |entities| - 1;
      BoundValid(engine, entities[..n], stack);
      AllValidSnoc(engine, entities, stack);
    }
  }

  /** Valid runestones keep the stack's item and capabilities, and a rune once applied stays recorded. */
  lemma {:induction false} BoundKeepsCaps(engine: Engine, entities: seq<RuneEntity>, stack: Stack, k: nat)
    requires ValidEngine(engine) && k <= |entities|
    ensures Bound(engine, entities, stack).stack.item == stack.item
    ensures SameCaps(Bound(engine, entities, stack).stack.caps, stack.caps)
    ensures Bound(engine, entities[..k], stack).anyApplied ==> Bound(engine, entities, stack).anyApplied
    decreases |entities|
  {
    if entities != [] {
      var n := |entities| - 1;
      if k <= n {
        assert entities[..n][..k] == entities[..k];
        BoundKeepsCaps(engine, entities[..n], stack, k);
      } else {
        assert entities[..k] == entities;
        BoundKeepsCaps(engine, entities[..n], stack, 0);
      }
    }
  }

  /**
   * The rune-bind forEach: applies each valid runestone and clears the flag for an invalid one;
   * after an applied runestone it reads the stack's charmable capability, which throws when the
   * stack has none.
   */
  method BindRunes(engine: Engine, entities: seq<RuneEntity>, stack: Stack) returns (out: Stack, isStackValid: bool, fault: Option<Fault>)
    requires ValidEngine(engine)
    ensures fault.Some? <==> Bound(engine, entities, stack).anyApplied && stack.caps.charmable.None?
    ensures fault.Some? ==> fault == Some(NullPointer)
    ensures fault.None? ==> out == Bound(engine, entities, stack).stack && isStackValid == Bound(engine, entities, stack).valid
  {
    out := stack;
    isStackValid := true;
    ghost var anyApplied := false;
    var i := 0;
    while i < |entities|
      invariant 0 <= i <= |entities|
      invariant Bound(engine, entities[..i], stack) == Binding(out, isStackValid, anyApplied)
      invariant SameCaps(out.caps, stack.caps)
      invariant stack.caps.charmable.None? ==> !anyApplied
    {
      assert entities[..i + 1][..i] == entities[..i];
      var entity := entities[i];
      if !engine.runeValid(entity, out) {
        isStackValid := false;
      } else {
        out := engine.runeApply(entity, out);
        anyApplied := true;
        if out.caps.charmable.None? {
          BoundKeepsCaps(engine, entities, stack, i + 1);
          return out, isStackValid, Some(NullPointer);
        }
      }
      i := i + 1;
    }
    assert entities[..i] == entities;
    fault := None;
  }

  // ---------------------------------------------------------------------------------------
  // The rules and their order

  datatype Rule = KeyMerge | CharmBind | CharmImbue | RuneBind | Gem | Repair | NoRule

  /** The position of a rule in the if/else chain. */
  function Rank(rule: Rule): nat {
    match rule
    case KeyMerge => 0
    case CharmBind => 1
    case CharmImbue => 2
    case RuneBind => 3
    case Gem => 4
    case Repair => 5
    case NoRule => 6
  }

  /** The guard of each rule. */
  predicate Holds(rule: Rule, left: Stack, right: Stack, engine: Engine) {
    match rule
    case KeyMerge => left.item == right.item && left.item.kind == KeyKind
    case CharmBind =>
      left.caps.charmable.Some? && right.caps.charmable.Some? &&
      left.caps.charmable.value.socketable && right.caps.charmable.value.bindable
    case CharmImbue =>
      left.caps.charmable.Some? && left.caps.charmable.value.imbuable &&
      right.caps.charmable.Some? && right.caps.charmable.value.imbuing
    case RuneBind =>
      left.caps.runestones.Some? && right.caps.runestones.Some? &&
      left.caps.runestones.value.socketable && right.caps.runestones.value.bindable
    case Gem => left.item.kind == AdornmentKind && left.caps.charmable.Some? && engine.isGemSource(right.item.id)
    case Repair => left.item.kind == AdornmentKind && right.item.kind == AdornmentKind
    case NoRule => false
  }

  /** The rule that fires: the first in order whose guard holds; at most one fires per event. */
  function RuleFor(left: Stack, right: Stack, engine: Engine): (rule: Rule)
    ensures rule != NoRule ==> Holds(rule, left, right, engine)
    ensures forall earlier :: Rank(earlier) < Rank(rule) ==> !Holds(earlier, left, right, engine)
  {
    if Holds(KeyMerge, left, right, engine) then KeyMerge
    else if Holds(CharmBind, left, right, engine) then CharmBind
    else if Holds(CharmImbue, left, right, engine) then CharmImbue
    else if Holds(RuneBind, left, right, engine) then RuneBind
    else if Holds(Gem, left, right, engine) then Gem
    else if Holds(Repair, left, right, engine) then Repair
    else NoRule
  }

  /** The first rule whose guard holds is the only one that can be chosen. */
  lemma RuleForIsFirst(left: Stack, right: Stack, engine: Engine, rule: Rule)
    requires rule != NoRule && Holds(rule, left, right, engine)
    requires forall earlier :: Rank(earlier) < Rank(rule) ==> !Holds(earlier, left, right, engine)
    ensures RuleFor(left, right, engine) == rule
  {
    var chosen := RuleFor(left, right, engine);
    assert Rank(chosen) >= Rank(rule);
    assert Rank(chosen) <= Rank(rule);
  }

  // ---------------------------------------------------------------------------------------
  // The effect of each rule on the event

  /** What a rule does to the event: the cost and material cost set, the output set, and an exception thrown. */
  datatype Effect = Effect(cost: Option<int>, materialCost: Option<int>, output: Option<Stack>, fault: Option<Fault>)

  const NoEffect := Effect(None, None, None, None)

  /** Merging keys: cost 1 and the merged key, when both keys have a durability capability. */
  function KeyMergeEffect(left: Stack, right: Stack): Effect
    requires WellFormed(left) && WellFormed(right)
  {
    if left.caps.durability.Some? && right.caps.durability.Some? then
      Effect(Some(1), None, Some(KeyMerged(left, right)), None)
    else NoEffect
  }

  /**
   * Binding a charm: cost 2; the left stack's runestones are read for logging (throwing when it
   * has none); the charm's innate charms go into the left stack's socket inventory, and the
   * output's socketed runestones are applied to it.
   */
  function CharmBindEffect(engine: Engine, left: Stack, right: Stack): Effect
    requires WellFormed(left)
  {
    if left.caps.runestones.None? then Effect(Some(2), None, None, Some(NullPointer))
    else
      var out := Transferred(engine, right, left, Innate, Socket);
      if out.None? then Effect(Some(2), None, None, None)
      else
        var output := if out.value.caps.runestones.Some? then AppliedAll(engine, Runes(out.value, Socket), out.value) else out.value;
        Effect(Some(2), None, Some(output), None)
  }

  /** Imbuing a charm: cost 2; the charm's innate charms go into the imbue inventory and the imbued runestones are applied. */
  function ImbueEffect(engine: Engine, left: Stack, right: Stack): Effect
    requires WellFormed(left)
  {
    var out := Transferred(engine, right, left, Innate, Imbue);
    if out.None? then Effect(Some(2), None, None, None)
    else
      var output := if out.value.caps.runestones.Some? then AppliedAll(engine, Runes(out.value, Imbue), out.value) else out.value;
      Effect(Some(2), None, Some(output), None)
  }

  /** Binding a runestone: cost 2; the output is set only when every socketed runestone was valid. */
  function RuneBindEffect(engine: Engine, left: Stack, right: Stack): Effect
    requires WellFormed(left)
  {
    var out := Transferred(engine, right, left, Innate, Socket);
    if out.None? then Effect(Some(2), None, None, None)
    else
      var binding := Bound(engine, Runes(out.value, Socket), out.value);
      if binding.anyApplied && out.value.caps.charmable.None? then Effect(Some(2), None, None, Some(NullPointer))
      else if binding.valid then Effect(Some(2), None, Some(binding.stack), None)
      else Effect(Some(2), None, None, None)
  }

  /** The gem output: a copy of the left adornment as the registry's adornment for the gem, keeping the highest level. */
  function GemOutput(engine: Engine, left: Stack, adornment: Item): (r: Stack)
    requires WellFormed(left) && left.item.kind == AdornmentKind
    requires ItemWellFormed(adornment) && adornment.kind == AdornmentKind
    ensures r.item == adornment
    ensures r.caps.charmable.Some? && r.caps.charmable.value.highestLevel == left.caps.charmable.value.highestLevel
    ensures r.caps.charmable.value.sourceItem == adornment.initial.charmable.value.sourceItem
    ensures r.damage == left.damage
  {
    var copied := Copied(engine, left, NewStack(adornment));
    copied.(caps := copied.caps.(charmable := Some(copied.caps.charmable.value.(highestLevel := left.caps.charmable.value.highestLevel))))
  }

  /**
   * Setting a gem, as written: only an adornment without a source item takes a gem; cost 1 and
   * material cost 1; the adornment for the gem is read before it is checked, so a missing one throws.
   */
  function GemEffectAsWritten(engine: Engine, left: Stack, right: Stack): Effect
    requires WellFormed(left) && left.item.kind == AdornmentKind && ValidEngine(engine)
  {
    var cap := left.caps.charmable.value;
    if cap.sourceItem != Air then NoEffect
    else
      var adornment := engine.adornmentFor(left.item, cap.baseMaterial, right.item.id);
      if adornment.None? then Effect(Some(1), Some(1), None, Some(NoSuchElement))
      else Effect(Some(1), Some(1), Some(GemOutput(engine, left, adornment.value)), None)
  }

  /** Setting a gem, as evidently intended: a missing adornment for the gem produces no output. */
  function GemEffect(engine: Engine, left: Stack, right: Stack): (e: Effect)
    requires WellFormed(left) && left.item.kind == AdornmentKind && ValidEngine(engine)
    ensures e.fault.None?
    ensures e.output.Some? <==>
              left.caps.charmable.value.sourceItem == Air &&
              engine.adornmentFor(left.item, left.caps.charmable.value.baseMaterial, right.item.id).Some?
    ensures e.output.Some? ==>
              e.output.value.item == engine.adornmentFor(left.item, left.caps.charmable.value.baseMaterial, right.item.id).value &&
              e.output.value.caps.charmable.Some? &&
              e.output.value.caps.charmable.value.highestLevel == left.caps.charmable.value.highestLevel
  {
    var cap := left.caps.charmable.value;
    if cap.sourceItem != Air then NoEffect
    else
      var adornment := engine.adornmentFor(left.item, cap.baseMaterial, right.item.id);
      if adornment.None? then Effect(Some(1), Some(1), None, None)
      else Effect(Some(1), Some(1), Some(GemOutput(engine, left, adornment.value)), None)
  }

  /** As written, a gem with no registered adornment throws where the intended rule sets no output. */
  lemma GemWithoutAdornment(engine: Engine, left: Stack, right: Stack)
    requires WellFormed(left) && left.item.kind == AdornmentKind && ValidEngine(engine)
    requires left.caps.charmable.value.sourceItem == Air
    requires engine.adornmentFor(left.item, left.caps.charmable.value.baseMaterial, right.item.id).None?
    ensures GemEffectAsWritten(engine, left, right) == Effect(Some(1), Some(1), None, Some(NoSuchElement))
    ensures GemEffect(engine, left, right) == Effect(Some(1), Some(1), None, None)
  {
  }

  /** The repaired adornment: a copy of the left one with no damage and one repair fewer. */
  function Repaired(engine: Engine, left: Stack): (r: Stack)
    requires WellFormed(left) && left.item.kind == AdornmentKind
    ensures r.item == left.item && r.damage == 0 && r.caps.durability.Some?
    ensures r.caps.durability.value.repairs == Copied(engine, left, NewStack(left.item)).caps.durability.value.repairs - 1
  {
    var copied := Copied(engine, left, NewStack(left.item));
    var cap := copied.caps.durability.value;
    SetItemDamage(copied, 0).(caps := copied.caps.(durability := Some(cap.(repairs := cap.repairs - 1))))
  }

  /** Repairing an adornment: cost 1, material cost 1, and an output only if the copy has repairs left and damage. */
  function RepairEffect(engine: Engine, left: Stack): Effect
    requires WellFormed(left) && left.item.kind == AdornmentKind
  {
    var copied := Copied(engine, left, NewStack(left.item));
    if copied.caps.durability.value.repairs > 0 && copied.damage > 0 then
      Effect(Some(1), Some(1), Some(Repaired(engine, left)), None)
    else Effect(Some(1), Some(1), None, None)
  }

  /** The effect of an anvil update: that of the first rule whose guard holds. */
  function Update(left: Stack, right: Stack, engine: Engine): Effect
    requires WellFormed(left) && WellFormed(right) && ValidEngine(engine)
  {
    match RuleFor(left, right, engine)
    case KeyMerge => KeyMergeEffect(left, right)
    case CharmBind => CharmBindEffect(engine, left, right)
    case CharmImbue => ImbueEffect(engine, left, right)
    case RuneBind => RuneBindEffect(engine, left, right)
    case Gem => GemEffect(engine, left, right)
    case Repair => RepairEffect(engine, left)
    case NoRule => NoEffect
  }

  // ---------------------------------------------------------------------------------------
  // Properties of an update

  /**
   * Two stacks of the same key item are handled by the key rule alone: cost 1 and a stack of the
   * key when both have durability, and nothing at all otherwise.
   */
  lemma KeysOnlyMerge(left: Stack, right: Stack, engine: Engine)
    requires WellFormed(left) && WellFormed(right) && ValidEngine(engine)
    requires left.item == right.item && left.item.kind == KeyKind
    ensures var e := Update(left, right, engine);
            && e.materialCost.None? && e.fault.None?
            && (e.output.Some? <==> left.caps.durability.Some? && right.caps.durability.Some?)
            && (e.output.Some? ==> e.cost == Some(1) && e.output.value.item == left.item)
            && (e.output.None? ==> e == NoEffect)
  {
  }

  /**
   * An output of the charm-bind, imbue or rune-bind rule is only ever produced when
   * transferCapabilities found that the left stack's inventory grew.
   */
  lemma BindingNeedsGrowth(left: Stack, right: Stack, engine: Engine)
    requires WellFormed(left) && WellFormed(right) && ValidEngine(engine)
    requires RuleFor(left, right, engine) in {CharmBind, CharmImbue, RuneBind}
    ensures var destType := if RuleFor(left, right, engine) == CharmImbue then Imbue else Socket;
            Update(left, right, engine).output.Some? ==>
              CharmsGrew(engine, right, left, Innate, destType) || RunesGrew(engine, right, left, Innate, destType)
    ensures Update(left, right, engine).cost == Some(2)
  {
  }

  /** A runestone output is set only if every socketed runestone was valid for the stack when it was visited. */
  lemma RuneBindNeedsValidRunes(left: Stack, right: Stack, engine: Engine)
    requires WellFormed(left) && WellFormed(right) && ValidEngine(engine)
    requires RuleFor(left, right, engine) == RuneBind
    ensures var out := Transferred(engine, right, left, Innate, Socket);
            var e := Update(left, right, engine);
            e.output.Some? ==>
              out.Some? &&
              AllValid(engine, Runes(out.value, Socket), out.value)
  {
    var out := Transferred(engine, right, left, Innate, Socket);
    if out.Some? {
      BoundValid(engine, Runes(out.value, Socket), out.value);
    }
  }

  /**
   * Repairing: cost 1 and material cost 1; with a durability copyTo that copies all four
   * numbers, an output exists exactly when the left adornment has repairs left and damage, and
   * it has no damage and one repair fewer than the left adornment.
   */
  lemma RepairRule(left: Stack, right: Stack, engine: Engine)
    requires WellFormed(left) && WellFormed(right) && ValidEngine(engine)
    requires RuleFor(left, right, engine) == Repair
    requires CopiesDurability(engine)
    ensures var e := Update(left, right, engine);
            && e.cost == Some(1) && e.materialCost == Some(1) && e.fault.None?
            && (e.output.Some? <==> left.caps.durability.value.repairs > 0 && left.damage > 0)
            && (e.output.Some? ==>
                  && e.output.value.item == left.item
                  && e.output.value.damage == 0
                  && e.output.value.caps.durability.value.repairs == left.caps.durability.value.repairs - 1)
  {
    CopiedDurability(engine, left, NewStack(left.item));
  }

  // ---------------------------------------------------------------------------------------
  // The event and the handler

  /** The anvil update event: the two input stacks, and the cost, material cost and output the handler sets. */
  class AnvilUpdateEvent {
    const left: Stack
    const right: Stack
    var cost: int
    var materialCost: int
    var output: Option<Stack>

    constructor (left: Stack, right: Stack, cost: int)
      ensures this.left == left && this.right == right
      ensures this.cost == cost && materialCost == 0 && output == None
    {
      this.left := left;
      this.right := right;
      this.cost := cost;
      materialCost := 0;
      output := None;
    }
  }

  /**
   * onAnvilUpdate: the first rule whose guard holds sets the event's cost, material cost and
   * output as its effect says, and the others are not tried; fault is the exception thrown.
   */
  method OnAnvilUpdate(event: AnvilUpdateEvent, engine: Engine) returns (fault: Option<Fault>)
    requires WellFormed(event.left) && WellFormed(event.right) && ValidEngine(engine)
    modifies event
    ensures var e := Update(event.left, event.right, engine);
            && event.cost == (if e.cost.Some? then e.cost.value else old(event.cost))
            && event.materialCost == (if e.materialCost.Some? then e.materialCost.value else old(event.materialCost))
            && event.output == (if e.output.Some? then e.output else old(event.output))
            && fault == e.fault
  {
    var leftStack := event.left;
    var rightStack := event.right;
    fault := None;
    var rule := RuleFor(leftStack, rightStack, engine);
    ghost var effect := Update(leftStack, rightStack, engine);
    if rule == KeyMerge {
      assert effect == KeyMergeEffect(leftStack, rightStack);
      if leftStack.caps.durability.Some? && rightStack.caps.durability.Some? {
        event.cost := 1;
        event.output := Some(KeyMerged(leftStack, rightStack));
      }
    } else if rule == CharmBind {
      assert effect == CharmBindEffect(engine, leftStack, rightStack);
      event.cost := 2;
      if leftStack.caps.runestones.None? {
        return Some(NullPointer);
      }
      var outStack := TransferCapabilities(rightStack, leftStack, Innate, Socket, engine);
      if outStack.Some? {
        var output := outStack.value;
        if output.caps.runestones.Some? {
          output := ApplyRunes(engine, Runes(outStack.value, Socket), outStack.value);
        }
        event.output := Some(output);
      }
    } else if rule == CharmImbue {
      assert effect == ImbueEffect(engine, leftStack, rightStack);
      event.cost := 2;
      var outStack := TransferCapabilities(rightStack, leftStack, Innate, Imbue, engine);
      if outStack.Some? {
        var output := outStack.value;
        if output.caps.runestones.Some? {
          output := ApplyRunes(engine, Runes(outStack.value, Imbue), outStack.value);
        }
        event.output := Some(output);
      }
    } else if rule == RuneBind {
      assert effect == RuneBindEffect(engine, leftStack, rightStack);
      event.cost := 2;
      var stack := TransferCapabilities(rightStack, leftStack, Innate, Socket, engine);
      if stack.Some? {
        var output, isStackValid, thrown := BindRunes(engine, Runes(stack.value, Socket), stack.value);
        if thrown.Some? {
          return thrown;
        }
        if isStackValid {
          event.output := Some(output);
        }
      }
    } else if rule == Gem {
      assert effect == GemEffect(engine, leftStack, rightStack);
      var cap := leftStack.caps.charmable.value;
      if cap.sourceItem == Air {
        event.cost := 1;
        event.materialCost := 1;
        var adornment := engine.adornmentFor(leftStack.item, cap.baseMaterial, rightStack.item.id);
        if adornment.Some? {
          var outputStack := CopyStack(leftStack, NewStack(adornment.value), engine);
          var outputCap := outputStack.caps.charmable.value.(highestLevel := cap.highestLevel);
          event.output := Some(outputStack.(caps := outputStack.caps.(charmable := Some(outputCap))));
        }
      }
    } else if rule == Repair {
      assert effect == RepairEffect(engine, leftStack);
      event.cost := 1;
      event.materialCost := 1;
      var outputStack := CopyStack(leftStack, NewStack(leftStack.item), engine);
      var cap := outputStack.caps.durability.value;
      if cap.repairs > 0 && outputStack.damage > 0 {
        outputStack := SetItemDamage(outputStack, 0);
        outputStack := outputStack.(caps := outputStack.caps.(durability := Some(cap.(repairs := cap.repairs - 1))));
        event.output := Some(outputStack);
      }
    }
  }
}
