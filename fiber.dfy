/**
 * A fiber: the entry function it runs (as a script), its optional pointer to
 * shared data, its 4096-byte stack with the aligned initial stack pointer,
 * its saved context and its done flag.
 */
module Fibers {
  import opened Scripts

  /** Bytes allocated for each fiber's stack. */
  const StackSize: nat := 4096
  /** Stack alignment the x86-64 calling convention demands. */
  const Alignment: nat := 16
  /** Bytes below the stack pointer that a leaf function may use untouched. */
  const RedZone: nat := 128
  /** Addresses are 64-bit: `uintptr_t` holds values below 2^64. */
  const AddressSpace: nat := 0x1_0000_0000_0000_0000
  /** The mask `-16L` once converted to a 64-bit `uintptr_t`. */
  const AlignMask: nat := AddressSpace - Alignment

  /** 2 to the power `k`. */
  function Pow2(k: nat): (p: nat)
    ensures p > 0
  {
    if k == 0 then 1 else 2 * Pow2(k - 1)
  }

  lemma {:induction false} Pow2Add(a: nat, b: nat)
    ensures Pow2(a + b) == Pow2(a) * Pow2(b)
    decreases a
  {
    if a > 0 {
      Pow2Add(a - 1, b);
    }
  }

  lemma Pow2Of16()
    ensures Pow2(16) == 0x1_0000
  {
    assert Pow2(8) == 256;
    Pow2Add(8, 8);
  }

  lemma Pow2Of32()
    ensures Pow2(32) == 0x1_0000_0000
  {
    Pow2Of16();
    Pow2Add(16, 16);
  }

  lemma Pow2Of48()
    ensures Pow2(48) == 0x1_0000_0000_0000
  {
    Pow2Of16();
    Pow2Of32();
    Pow2Add(32, 16);
  }

  lemma Pow2Of60()
    ensures Pow2(60) == 0x1000_0000_0000_0000
  {
    Pow2Of48();
    assert Pow2(12) == 0x1000;
    Pow2Add(48, 12);
  }

  /** The mask is sixteen times a run of 60 one-bits. */
  lemma MaskShape()
    ensures AlignMask == 16 * (Pow2(60) - 1)
  {
    Pow2Of60();
  }

  /** Bitwise AND of two naturals, bit by bit from the least significant one. */
  function BitAnd(x: nat, y: nat): nat
    decreases x
  {
    if x == 0 || y == 0 then 0
    else 2 * BitAnd(x / 2, y / 2) + (if x % 2 == 1 && y % 2 == 1 then 1 else 0)
  }

  /** ANDing with an even mask clears bit 0 and ANDs the rest. */
  lemma BitAndEven(x: nat, m: nat)
    ensures BitAnd(x, 2 * m) == 2 * BitAnd(x / 2, m)
  {
    if x == 0 || m == 0 {
      assert BitAnd(x / 2, m) == 0;
    } else {
      assert (2 * m) / 2 == m && (2 * m) % 2 == 0;
    }
  }

  /** ANDing with a run of `k` one-bits keeps every number below 2^k. */
  lemma {:induction false} BitAndOnes(x: nat, k: nat)
    requires x < Pow2(k)
    ensures BitAnd(x, Pow2(k) - 1) == x
    decreases k
  {
    if k > 0 && x > 0 {
      assert (Pow2(k) - 1) / 2 == Pow2(k - 1) - 1;
      assert (Pow2(k) - 1) % 2 == 1;
      BitAndOnes(x / 2, k - 1);
    }
  }

  /** `x & -16` rounds a 64-bit address down to a multiple of 16. */
  lemma AlignDown(x: nat)
    requires x < AddressSpace
    ensures BitAnd(x, AlignMask) == x - x % Alignment
  {
    var ones := Pow2(60) - 1;
    MaskShape();
    BitAndEven(x, 8 * ones);
    BitAndEven(x / 2, 4 * ones);
    BitAndEven(x / 4, 2 * ones);
    BitAndEven(x / 8, ones);
    assert x / 2 / 2 == x / 4 && x / 4 / 2 == x / 8 && x / 8 / 2 == x / 16;
    BitAndOnes(x / 16, 60);
  }

  /** Rounding down to a multiple of 16 moves by less than 16. */
  lemma RoundDown(x: nat)
    ensures (x - x % Alignment) % Alignment == 0
    ensures x - (Alignment - 1) <= x - x % Alignment <= x
  {
  }

  /**
   * The stack pointer a fiber starts with: the top of its stack, rounded down
   * to 16 bytes, minus the red zone. `stack` is the address the allocation
   * returned; the whole buffer lies inside the address space.
   */
  function InitialStackPointer(stack: Addr): (sp: Addr)
    requires stack + StackSize < AddressSpace
    ensures sp % Alignment == 0
    ensures stack + StackSize - RedZone - (Alignment - 1) <= sp <= stack + StackSize - RedZone
    ensures stack <= sp
  {
    var top := stack + StackSize;
    AlignDown(top);
    RoundDown(top);
    BitAnd(top, AlignMask) - RedZone
  }

  /** The registers a switch saves and restores: where to resume, and the stack pointer. */
  datatype Context = Context(rip: nat, rsp: Addr)

  class Fiber {
    /** The entry function, as the script it runs. */
    const body: seq<Action>
    /** The optional shared-data pointer given at construction. */
    const data: IntPtr
    /** The address of the 4096-byte stack buffer. */
    const stack: Addr
    /** The aligned initial stack pointer inside that buffer. */
    const sp: Addr
    /** The saved context: where the fiber resumes when switched to. */
    var context: Context
    var done: bool

    /** The scheduler's view of this fiber. */
    function AsTask(): Task
      reads this
    {
      Task(body, data, context.rip, done)
    }

    /** The stack buffer lies in the address space and the stack pointer is where the constructor put it. */
    predicate StackValid() {
      stack + StackSize < AddressSpace && sp == InitialStackPointer(stack)
    }

    /** A fiber the scheduler can resume, with its stack pointer where the constructor put it. */
    predicate Valid()
      reads this
    {
      TaskValid(AsTask()) && StackValid()
    }

    /**
     * A new fiber for `func` with shared data `data`, whose stack buffer was
     * allocated at `stack`: not done, and its context starts `func` on the
     * aligned stack.
     */
    constructor (func: seq<Action>, data: IntPtr, stack: Addr)
      requires stack + StackSize < AddressSpace
      ensures this.body == func && this.data == data && this.stack == stack
      ensures sp == InitialStackPointer(stack)
      ensures context == Context(0, sp)
      ensures !done
      ensures WellFormed(func) ==> Valid()
    {
      body := func;
      this.data := data;
      this.stack := stack;
      sp := InitialStackPointer(stack);
      context := Context(0, InitialStackPointer(stack));
      done := false;
    }

    /** The saved context a switch into this fiber resumes. */
    function GetContext(): (c: Context)
      reads this
      ensures Valid() ==> c.rip < |body|
    {
      context
    }

    /** The shared-data pointer: always the one given at construction. */
    function GetData(): (p: IntPtr)
      ensures p == data
    {
      data
    }

    /** Whether the fiber has called `fiber_exit()`. */
    function IsDone(): (b: bool)
      reads this
      ensures b == AsTask().done
    {
      done
    }

    /**
     * Records that the fiber finished; nothing else changes. It is called
     * from `fiber_exit()`, so the body has no `yield()` left before it.
     */
    method MarkDone()
      requires Valid() && YieldsLeft(body, context.rip) == 0
      modifies this
      ensures Valid() && done
      ensures context == old(context)
    {
      done := true;
    }

    /**
     * A context switch away from this fiber saves where it will resume: a
     * point inside the body, from which a done fiber would make no `yield()`.
     */
    method SaveContext(c: Context)
      requires Valid() && c.rip < |body| && (done ==> YieldsLeft(body, c.rip) == 0)
      modifies this
      ensures Valid() && context == c
      ensures done == old(done)
    {
      context := c;
    }
  }
}
