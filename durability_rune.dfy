/**
 * DurabilityRune: a rune that raises a stack's durability and maximum durability by a quarter
 * while applied, and lowers them again when undone.
 */
module DurabilityRune {
  import opened Capabilities

  /** (int) Math.round(n * 1.25D): Math.round is floor(x + 1/2), and n * 5/4 + 1/2 == (5n + 2)/4. */
  function Grow(n: int): int {
    (5 * n + 2) / 4
  }

  /** (int) Math.round(n / 1.25D): floor(4n/5 + 1/2) == floor((8n + 5)/10), which equals (4n + 2)/5. */
  function Shrink(n: int): int {
    (4 * n + 2) / 5
  }

  /** Rounding the quarter up and rounding it back down again lands on the starting value. */
  lemma {:induction false} ShrinkGrow(n: int)
    ensures Shrink(Grow(n)) == n
  {
    var g := Grow(n);
    assert 4 * g <= 5 * n + 2 < 4 * g + 4;
    assert 5 * n <= 4 * g + 2 < 5 * n + 5;
  }

  /** The durability numbers after a successful apply: the maximum first, then the durability. */
  function Applied(v: DurabilityState): DurabilityState {
    DurabilityState(Grow(v.durability), Grow(v.maxDurability))
  }

  /** The durability numbers after undo: the durability first, then the maximum. */
  function Undone(v: DurabilityState): DurabilityState {
    DurabilityState(Shrink(v.durability), Shrink(v.maxDurability))
  }

  /** Undoing a successful apply restores both numbers. */
  lemma UndoApplied(v: DurabilityState)
    ensures Undone(Applied(v)) == v
  {
    ShrinkGrow(v.durability);
    ShrinkGrow(v.maxDurability);
  }

  /** A rune entity on a stack: whether its rune is currently applied. */
  class RuneEntity {
    var applied: bool

    constructor (applied: bool)
      ensures this.applied == applied
    {
      this.applied := applied;
    }
  }

  /** isValid: the rune fits any stack that has a durability capability. */
  predicate IsValid(stack: ItemStack) {
    stack.durabilityCap != null
  }

  /** apply: a no-op on an invalid stack or an applied entity; otherwise grows both numbers and marks the entity. */
  method Apply(stack: ItemStack, entity: RuneEntity)
    modifies stack.durabilityCap, entity
    ensures !IsValid(stack) || old(entity.applied) ==>
              entity.applied == old(entity.applied) &&
              (stack.durabilityCap != null ==> stack.durabilityCap.Value() == old(stack.durabilityCap.Value()))
    ensures IsValid(stack) && !old(entity.applied) ==>
              stack.durabilityCap.Value() == Applied(old(stack.durabilityCap.Value())) && entity.applied
  {
    if !IsValid(stack) || entity.applied {
      return;
    }
    var cap := stack.durabilityCap;
    // the maximum is raised before the durability
    cap.maxDurability := Grow(cap.maxDurability);
    cap.durability := Grow(cap.durability);
    entity.applied := true;
  }

  /** undo: shrinks the durability, then the maximum, and clears the entity's applied flag. */
  method Undo(stack: ItemStack, entity: RuneEntity)
    requires IsValid(stack)
    modifies stack.durabilityCap, entity
    ensures stack.durabilityCap.Value() == Undone(old(stack.durabilityCap.Value()))
    ensures !entity.applied
  {
    var cap := stack.durabilityCap;
    cap.durability := Shrink(cap.durability);
    cap.maxDurability := Shrink(cap.maxDurability);
    entity.applied := false;
  }

  /** Applying twice leaves the same state as applying once. */
  method ApplyTwice(stack: ItemStack, entity: RuneEntity)
    modifies stack.durabilityCap, entity
    ensures IsValid(stack) ==> entity.applied
    ensures !IsValid(stack) ==> entity.applied == old(entity.applied)
    ensures IsValid(stack) && !old(entity.applied) ==>
              stack.durabilityCap.Value() == Applied(old(stack.durabilityCap.Value()))
    ensures IsValid(stack) && old(entity.applied) ==>
              stack.durabilityCap.Value() == old(stack.durabilityCap.Value())
  {
    Apply(stack, entity);
    Apply(stack, entity);
  }

  /** A successful apply followed by undo restores the stack's durability and the entity. */
  method ApplyThenUndo(stack: ItemStack, entity: RuneEntity)
    requires IsValid(stack) && !entity.applied
    modifies stack.durabilityCap, entity
    ensures stack.durabilityCap.Value() == old(stack.durabilityCap.Value())
    ensures entity.applied == old(entity.applied)
  {
    Apply(stack, entity);
    Undo(stack, entity);
    UndoApplied(old(stack.durabilityCap.Value()));
  }
}
