/**
 * The shadow state `LlvmFunctionBuilder` keeps while it translates a Python code object:
 * the value stack between `stack_bottom_` and the stack pointer, the locals, the
 * reference counts of the objects they hold, the unwind-target switch and the bail
 * points back to the interpreter.
 *
 * The central invariant is reference-count balance: every object's count is the number
 * of references held by the value stack, by the locals, by the translated code's own
 * temporaries (a ghost ledger) and by the rest of the program (fixed for the lifetime of
 * the builder).
 */
module FunctionBuilder {
  import opened Wrappers
  import Text
  import Machine

  /** A `PyObject*`, by identity; `Null` is the null pointer. */
  type Obj = int

  const Null: Obj := 0

  /** An LLVM basic block, by identity. */
  type Block = nat

  /** The reference a single slot holding `v` owns: none for a null pointer. */
  function OwnedBy(v: Obj): (m: multiset<Obj>)
    ensures v != Null ==> m == multiset{v}
    ensures v == Null ==> m == multiset{}
  {
    if v == Null then multiset{} else multiset{v}
  }

  /** The references a run of slots owns: its non-null values, with multiplicity. */
  function Owned(s: seq<Obj>): (m: multiset<Obj>)
    ensures Null !in m
  {
    multiset(s)[Null := 0]
  }

  /** Overwriting slot `i` with `v` trades the old occupant's reference for `v`'s. */
  lemma OwnedUpdate(s: seq<Obj>, i: nat, v: Obj)
    requires i < |s|
    ensures Owned(s[i := v]) + OwnedBy(s[i]) == Owned(s) + OwnedBy(v)
  {
    var front, back := s[..i], s[i + 1..];
    assert s == front + [s[i]] + back;
    assert s[i := v] == front + [v] + back;
    assert multiset(s) == multiset(front) + multiset{s[i]} + multiset(back);
    assert multiset(s[i := v]) == multiset(front) + multiset{v} + multiset(back);
  }

  /**
   * Reference-count balance: the counts `r` are exactly the references held by the rest
   * of the program (`o`), the stack slots `st`, the locals `l` and the code's temporaries `h`.
   */
  predicate Balanced(r: multiset<Obj>, o: multiset<Obj>, st: seq<Obj>, l: seq<Obj>, h: multiset<Obj>) {
    r == o + multiset(st) + Owned(l) + h
  }

  /** Adding references and then giving the same ones up leaves what was there. */
  lemma AddThenRemove(m: multiset<Obj>, x: multiset<Obj>)
    ensures m + x - x == m
  {
    forall v
      ensures (m + x - x)[v] == m[v]
    {
    }
  }

  /** A reference the code holds is counted. */
  lemma HeldIsCounted(r: multiset<Obj>, o: multiset<Obj>, st: seq<Obj>, l: seq<Obj>, h: multiset<Obj>, v: Obj)
    requires Balanced(r, o, st, l, h) && v in h
    ensures v in r
  {
    assert r[v] >= h[v];
  }

  /** Giving up the reference of a value moved from the stack to the popped run keeps the total. */
  lemma DecRefStep(r: multiset<Obj>, popped: seq<Obj>, v: Obj, total: multiset<Obj>)
    requires v in r && r + multiset(popped) == total
    ensures (r - multiset{v}) + multiset([v] + popped) == total
  {
    assert multiset([v] + popped) == multiset{v} + multiset(popped);
    assert r - multiset{v} + multiset{v} == r;
  }

  /**
   * The store half of `SetLocal` keeps the balance: the slot takes the code's reference to
   * `nv` (none for a null pointer), and the code takes over the old occupant's reference.
   */
  lemma StoreLocalBalanced(r: multiset<Obj>, o: multiset<Obj>, st: seq<Obj>, l: seq<Obj>, h: multiset<Obj>,
                           i: nat, nv: Obj)
    requires Balanced(r, o, st, l, h) && i < |l| && (nv == Null || nv in h)
    ensures Balanced(r, o, st, l[i := nv], h - OwnedBy(nv) + OwnedBy(l[i]))
  {
    OwnedUpdate(l, i, nv);
    var l' := Owned(l[i := nv]);
    var po := OwnedBy(l[i]);
    forall x
      ensures r[x] == (o + multiset(st) + l' + (h - OwnedBy(nv) + po))[x]
    {
      assert (l' + po)[x] == (Owned(l) + OwnedBy(nv))[x];
    }
  }

  /** `IncRef`/`DecRef` keep the balance: the count and the code's temporaries move together. */
  lemma DecRefBalanced(r: multiset<Obj>, o: multiset<Obj>, st: seq<Obj>, l: seq<Obj>, h: multiset<Obj>, v: Obj)
    requires Balanced(r, o, st, l, h) && v in h
    ensures Balanced(r - multiset{v}, o, st, l, h - multiset{v})
  {
  }

  lemma IncRefBalanced(r: multiset<Obj>, o: multiset<Obj>, st: seq<Obj>, l: seq<Obj>, h: multiset<Obj>, v: Obj)
    requires Balanced(r, o, st, l, h)
    ensures Balanced(r + multiset{v}, o, st, l, h + multiset{v})
  {
  }

  /** `Push` keeps the balance: one reference moves from the code's temporaries to the new top slot. */
  lemma PushBalanced(r: multiset<Obj>, o: multiset<Obj>, st: seq<Obj>, l: seq<Obj>, h: multiset<Obj>, v: Obj)
    requires Balanced(r, o, st, l, h) && v in h
    ensures Balanced(r, o, st + [v], l, h - multiset{v})
  {
    assert multiset(st + [v]) == multiset(st) + multiset{v};
  }

  /** `Pop` keeps the balance: the top slot's reference moves to the code's temporaries. */
  lemma PopBalanced(r: multiset<Obj>, o: multiset<Obj>, kept: seq<Obj>, v: Obj, l: seq<Obj>, h: multiset<Obj>)
    requires Balanced(r, o, kept + [v], l, h)
    ensures Balanced(r, o, kept, l, h + multiset{v})
  {
    assert multiset(kept + [v]) == multiset(kept) + multiset{v};
  }

  /**
   * In a balanced state every reference the stack, the locals and the code hold is counted:
   * no object they point to can have been freed.
   */
  lemma HeldReferencesAreCounted(r: multiset<Obj>, o: multiset<Obj>, st: seq<Obj>, l: seq<Obj>, h: multiset<Obj>)
    requires Balanced(r, o, st, l, h)
    ensures forall i :: 0 <= i < |st| ==> r[st[i]] >= multiset(st)[st[i]] > 0
    ensures forall i :: 0 <= i < |l| && l[i] != Null ==> l[i] in r
    ensures h <= r
  {
  }

  /** A bail point: the instruction index the interpreter resumes at, and why. */
  datatype BailPoint = BailPoint(index: Machine.UInt32, reason: char)

  /** The runtime feedback of a conditional branch: how often each side was taken. */
  datatype BranchFeedback = BranchFeedback(trueCount: nat, falseCount: nat)

  /**
   * Whether a conditional branch is translated with one side replaced by a bail block:
   * there is feedback, it holds at least `minSamples` observations, and one side was
   * never taken.
   */
  predicate ShouldOmitBranchSide(feedback: Option<BranchFeedback>, minSamples: nat) {
    feedback.Some?
    && feedback.value.trueCount + feedback.value.falseCount >= minSamples
    && feedback.value.trueCount + feedback.value.falseCount > 0
    && (feedback.value.trueCount == 0 || feedback.value.falseCount == 0)
  }

  class LlvmFunctionBuilder {
    /** The frame's value stack; `stack_bottom_` is the index `stackBottom`. */
    const stack: array<Obj>
    const stackBottom: nat
    /** `*stack_pointer_addr_`, as an index into `stack`. */
    var stackPointer: nat
    /** The contents of the `locals_` allocas. */
    var locals: seq<Obj>
    /** The reference count of every live object, as a multiplicity. */
    var refcount: multiset<Obj>
    /** `existing_unwind_targets_`. */
    var existingUnwindTargets: set<int>
    /** The cases of `unwind_target_switch_`: unwind index to handler block. */
    var unwindTargets: map<int, Block>
    /** `f_lasti_`, an `int`: the index of the instruction being translated; the header gives no initial value. */
    var lasti: int
    /** The bail points created so far, in order. */
    var bailPoints: seq<BailPoint>
    /** References owned by the rest of the program. */
    ghost const others: multiset<Obj>
    /** References owned by the translated code's temporaries. */
    ghost var held: multiset<Obj>
    /** The values on the stack, bottom first: the live part of `stack`. */
    ghost var contents: seq<Obj>

    /** The array holds `contents` between the stack bottom and the stack pointer. */
    ghost predicate StackValid()
      reads this`stackPointer, this`contents, stack
    {
      stackBottom <= stackPointer <= stack.Length
      && |contents| == stackPointer - stackBottom
      && forall i :: 0 <= i < |contents| ==> stack[stackBottom + i] == contents[i]
    }

    /** Every count is accounted for by the stack, the locals, the code and the rest of the program */
    ghost predicate LedgerValid()
      reads this`refcount, this`contents, this`locals, this`held
    {
      Balanced(refcount, others, contents, locals, held)
    }

    /** The registered unwind indices are exactly the switch's cases. */
    ghost predicate UnwindValid()
      reads this`existingUnwindTargets, this`unwindTargets
    {
      existingUnwindTargets == unwindTargets.Keys
    }

    ghost predicate Valid()
      reads this, stack
    {
      StackValid() && LedgerValid() && UnwindValid()
    }

    /**
     * A builder over an empty stack of `stackSize` slots and the frame's locals; the
     * objects' counts are `refcount`, which includes the locals' own references.
     */
    constructor (stackSize: nat, initialLocals: seq<Obj>, refcount: multiset<Obj>)
      requires Owned(initialLocals) <= refcount
      ensures Valid() && fresh(stack)
      ensures stack.Length == stackSize && stackBottom == 0 && stackPointer == 0
      ensures locals == initialLocals && this.refcount == refcount && held == multiset{}
      ensures unwindTargets == map[] && bailPoints == []
    {
      stack := new Obj[stackSize];
      stackBottom := 0;
      stackPointer := 0;
      locals := initialLocals;
      this.refcount := refcount;
      existingUnwindTargets := {};
      unwindTargets := map[];
      bailPoints := [];
      others := refcount - Owned(initialLocals);
      held := multiset{};
      contents := [];
      new;
    }

    /** `SetLasti`: starts translating the instruction at `index`. */
    method SetLasti(index: int)
      requires Valid()
      modifies this`lasti
      ensures Valid() && lasti == index
    {
      lasti := index;
    }

    /** `IncRef`: the code takes a new reference to `value`. */
    method IncRef(value: Obj)
      requires Valid() && value != Null
      modifies this`refcount, this`held
      ensures Valid()
      ensures refcount == old(refcount) + multiset{value} && held == old(held) + multiset{value}
    {
      IncRefBalanced(refcount, others, contents, locals, held, value);
      refcount := refcount + multiset{value};
      held := held + multiset{value};
    }

    /** `DecRef`: the code gives up a reference it owns. */
    method DecRef(value: Obj)
      requires Valid() && value in held
      modifies this`refcount, this`held
      ensures Valid()
      ensures refcount == old(refcount) - multiset{value} && held == old(held) - multiset{value}
    {
      DecRefBalanced(refcount, others, contents, locals, held, value);
      refcount := refcount - multiset{value};
      held := held - multiset{value};
    }

    /** `XDecRef`: `DecRef`, except that a null pointer is left alone. */
    method XDecRef(value: Obj)
      requires Valid() && (value == Null || value in held)
      modifies this`refcount, this`held
      ensures Valid()
      ensures refcount == old(refcount) - OwnedBy(value) && held == old(held) - OwnedBy(value)
    {
      if value != Null {
        DecRef(value);
      }
    }

    /**
     * `Push`: stores `value` at the stack pointer and advances it. No count changes: the
     * stack slot takes over the reference the code owned.
     */
    method Push(value: Obj)
      requires Valid() && value in held && stackPointer < stack.Length
      modifies stack, this`stackPointer, this`held, this`contents
      ensures Valid() && stackPointer == old(stackPointer) + 1
      ensures contents == old(contents) + [value]
      ensures held == old(held) - multiset{value}
    {
      PushBalanced(refcount, others, contents, locals, held, value);
      stack[stackPointer] := value;
      stackPointer := stackPointer + 1;
      held := held - multiset{value};
      contents := contents + [value];
    }

    /**
     * `Pop`: retreats the stack pointer and returns the value it uncovers. No count
     * changes: the reference passes from the slot to the code.
     */
    method Pop() returns (value: Obj)
      requires Valid() && stackPointer > stackBottom
      modifies this`stackPointer, this`held, this`contents
      ensures Valid() && stackPointer == old(stackPointer) - 1
      ensures old(contents) == contents + [value]
      ensures held == old(held) + multiset{value}
    {
      value := stack[stackPointer - 1];
      ghost var kept := contents[..|contents| - 1];
      assert contents == kept + [value];
      PopBalanced(refcount, others, kept, value, locals, held);
      stackPointer := stackPointer - 1;
      held := held + multiset{value};
      contents := kept;
    }

    /** A `Push` followed by a `Pop` hands back the same value and leaves the stack and the counts as they were. */
    method PushThenPop(value: Obj) returns (popped: Obj)
      requires Valid() && value in held && stackPointer < stack.Length
      modifies stack, this`stackPointer, this`held, this`contents
      ensures Valid() && popped == value
      ensures contents == old(contents)
      ensures refcount == old(refcount) && held == old(held)
    {
      Push(value);
      ghost var pushed := contents;
      popped := Pop();
      Text.LastOff(pushed, old(contents), value, contents, popped);
    }

    /** One step of `PopAndDecrefTo`: pops the top value and gives up its reference. */
    method PopAndDecref() returns (value: Obj)
      requires Valid() && stackPointer > stackBottom
      modifies this`stackPointer, this`refcount, this`held, this`contents
      ensures Valid() && stackPointer == old(stackPointer) - 1
      ensures old(contents) == contents + [value]
      ensures value in old(refcount) && refcount == old(refcount) - multiset{value}
      ensures held == old(held)
    {
      value := Pop();
      HeldIsCounted(refcount, others, contents, locals, held, value);
      DecRef(value);
      AddThenRemove(old(held), multiset{value});
    }

    /**
     * `PopAndDecrefTo`: pops down to `target`, giving up each popped value's reference
     * once.
     */
    method PopAndDecrefTo(target: nat)
      requires Valid() && stackBottom <= target <= stackPointer
      modifies this`stackPointer, this`refcount, this`held, this`contents
      ensures Valid() && stackPointer == target
      ensures contents == old(contents)[..target - stackBottom]
      ensures refcount + multiset(old(contents)[target - stackBottom..]) == old(refcount)
      ensures held == old(held)
    {
      ghost var start := contents;
      ghost var popped: seq<Obj> := [];
      while stackPointer > target
        invariant Valid() && target <= stackPointer
        invariant start == contents + popped
        invariant refcount + multiset(popped) == old(refcount)
        invariant held == old(held)
        decreases stackPointer
      {
        ghost var before := refcount;
        var value := PopAndDecref();
        Text.Assoc(contents, [value], popped);
        DecRefStep(before, popped, value, old(refcount));
        popped := [value] + popped;
      }
      Text.SplitAt(start, contents, popped);
    }

    /** `GetStackLevel`: how many values are on the stack. */
    method GetStackLevel() returns (level: nat)
      requires Valid()
      ensures level == |contents|
      ensures stackBottom + level == stackPointer
    {
      level := stackPointer - stackBottom;
    }

    /**
     * `SetLocal`: the local at `index` takes over the code's reference to `newValue` (storing
     * a null pointer unbinds it); its previous occupant's reference is given up after the store.
     */
    method SetLocal(index: nat, newValue: Obj)
      requires Valid() && index < |locals| && (newValue == Null || newValue in held)
      modifies this`locals, this`refcount, this`held
      ensures Valid()
      ensures locals == old(locals)[index := newValue]
      ensures refcount == old(refcount) - OwnedBy(old(locals)[index])
      ensures held == old(held) - OwnedBy(newValue)
    {
      ghost var kept := held - OwnedBy(newValue);
      var original := StoreLocal(index, newValue);
      XDecRef(original);
      AddThenRemove(kept, OwnedBy(original));
    }

    /** The store half of `SetLocal`: the old occupant's reference passes to the code. */
    method StoreLocal(index: nat, newValue: Obj) returns (original: Obj)
      requires Valid() && index < |locals| && (newValue == Null || newValue in held)
      modifies this`locals, this`held
      ensures Valid() && original == old(locals)[index]
      ensures locals == old(locals)[index := newValue]
      ensures held == old(held) - OwnedBy(newValue) + OwnedBy(original)
      ensures original == Null || original in held
    {
      original := locals[index];
      StoreLocalBalanced(refcount, others, contents, locals, held, index, newValue);
      locals, held := locals[index := newValue], held - OwnedBy(newValue) + OwnedBy(original);
    }

    /**
     * `AddUnwindTarget`: makes `target` the handler for unwind index `targetOpindex`,
     * unless that index is already registered, and returns the index.
     */
    method AddUnwindTarget(target: Block, targetOpindex: int) returns (index: int)
      requires Valid()
      modifies this`unwindTargets, this`existingUnwindTargets
      ensures Valid() && index == targetOpindex
      ensures existingUnwindTargets == old(existingUnwindTargets) + {index}
      ensures index in old(unwindTargets) ==> unwindTargets == old(unwindTargets)
      ensures index !in old(unwindTargets) ==> unwindTargets == old(unwindTargets)[index := target]
    {
      index := targetOpindex;
      if index !in existingUnwindTargets {
        unwindTargets := unwindTargets[index := target];
        existingUnwindTargets := existingUnwindTargets + {index};
      }
    }

    /** `CreateBailPoint(bail_idx, reason)`, with the `unsigned` index. */
    method CreateBailPointAt(bailIndex: Machine.UInt32, reason: char)
      requires Valid()
      modifies this`bailPoints
      ensures Valid() && bailPoints == old(bailPoints) + [BailPoint(bailIndex, reason)]
    {
      bailPoints := bailPoints + [BailPoint(bailIndex, reason)];
    }

    /**
     * `CreateBailPoint(reason)`: a bail point at the instruction being translated. The `int`
     * `f_lasti_` is passed as the `unsigned` index, so it arrives converted to 32 bits.
     */
    method CreateBailPoint(reason: char)
      requires Valid()
      modifies this`bailPoints
      ensures Valid() && bailPoints == old(bailPoints) + [BailPoint(Machine.ToUInt32(lasti), reason)]
    {
      CreateBailPointAt(Machine.ToUInt32(lasti), reason);
    }

    /**
     * `GetPyCondBranchBailBlock`: either leaves both branch targets alone with bail index
     * 0 and no bail block, or sends the side that was never taken to the new bail block
     * `freshBlock` and reports that side's instruction index.
     */
    method GetPyCondBranchBailBlock(trueIndex: Machine.UInt32, trueBlock: Block, falseIndex: Machine.UInt32,
                                    falseBlock: Block, feedback: Option<BranchFeedback>, minSamples: nat,
                                    freshBlock: Block)
      returns (newTrueBlock: Block, newFalseBlock: Block, bailIndex: Machine.UInt32, bailBlock: Option<Block>)
      requires freshBlock != trueBlock && freshBlock != falseBlock
      ensures !ShouldOmitBranchSide(feedback, minSamples)
              ==> newTrueBlock == trueBlock && newFalseBlock == falseBlock && bailIndex == 0 && bailBlock == None
      ensures ShouldOmitBranchSide(feedback, minSamples)
              ==> bailBlock == Some(freshBlock)
                  && ((newTrueBlock == freshBlock && newFalseBlock == falseBlock && bailIndex == trueIndex)
                      || (newFalseBlock == freshBlock && newTrueBlock == trueBlock && bailIndex == falseIndex))
      ensures newTrueBlock != trueBlock ==> feedback.Some? && feedback.value.trueCount == 0
      ensures newFalseBlock != falseBlock ==> feedback.Some? && feedback.value.falseCount == 0
    {
      newTrueBlock, newFalseBlock, bailIndex, bailBlock := trueBlock, falseBlock, 0, None;
      if ShouldOmitBranchSide(feedback, minSamples) {
        bailBlock := Some(freshBlock);
        if feedback.value.trueCount == 0 {
          newTrueBlock := freshBlock;
          bailIndex := trueIndex;
        } else {
          newFalseBlock := freshBlock;
          bailIndex := falseIndex;
        }
      }
    }
  }
}
