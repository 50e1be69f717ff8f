/**
 * The initial context image that pxPortInitialiseStack synthesises on a new
 * task's stack (port.c:132-261).
 *
 * The stack is an array of words and a stack pointer is an index into it. The
 * frame is written downward from the caller's top-of-stack index `top`; a cell
 * is described by its offset `k`, so that it lives at index `top - k`.
 *
 * The frame is specified slot by slot, independently of the order of the
 * writes: `SlotOffset` says where each register is kept, `SlotContent` what a
 * restored new task finds in it. InitialiseStack follows the source's
 * sequence of writes and skips and is proved to produce exactly that layout.
 */
module StackFrame {
  import opened PortConfig

  /** The interrupt-enable and exception-enable bits of the MSR (portMSR_IE, portMSR_EE). */
  const MSR_IE: bv32 := 0x02
  const MSR_EE: bv32 := 0x100

  /** The FSR value of a new task. */
  const INITIAL_FSR: Word := 0

  /** The values pxPortInitialiseStack takes from outside: its arguments, the MSR and link-time symbols. */
  datatype TaskSeed = TaskSeed(
    msr: bv32,               // what mfmsr() returns
    sda2Base: Word,          // &_SDA2_BASE_
    sdaBase: Word,           // &_SDA_BASE_
    code: Word,              // pxCode
    parameters: Word,        // pvParameters
    taskReturnAddress: Word  // portTASK_RETURN_ADDRESS
  )

  /** One word when the FPU is built in (the FSR slot), none otherwise. */
  function FpuWords(cfg: Config): nat {
    if cfg.fpu then 1 else 0
  }

  /** How far below `top` the returned stack pointer lies. */
  function FrameWords(cfg: Config): nat {
    35 + FpuWords(cfg)
  }

  /** `w & ~mask` */
  function ClearBits(w: bv32, mask: bv32): bv32 {
    w & !mask
  }

  /** `w | mask` */
  function SetBits(w: bv32, mask: bv32): bv32 {
    w | mask
  }

  /**
   * The MSR stored in a new task's frame. A new task starts with interrupts
   * disabled, with exceptions enabled when the build enables them, and with
   * every other MSR bit as its creator had it.
   */
  function InitialMsr(exceptions: bool, msr: bv32): (m: bv32)
    ensures m & MSR_IE == 0
    ensures exceptions ==> m & MSR_EE == MSR_EE
    ensures !exceptions ==> m & MSR_EE == msr & MSR_EE
    ensures m & !(MSR_IE | MSR_EE) == msr & !(MSR_IE | MSR_EE)
  {
    var masked := ClearBits(msr, MSR_IE);
    if exceptions then SetBits(masked, MSR_EE) else masked
  }

  /** The initial MSR as a stack word. */
  function MsrWord(exceptions: bool, msr: bv32): int {
    InitialMsr(exceptions, msr) as int
  }

  // ---------------------------------------------------------------------------
  // The frame described slot by slot.

  /** A slot of the context image: the three padding words, FSR, MSR, the critical nesting count, or register Rr. */
  datatype Slot = Pad(k: nat) | Fsr | Msr | CriticalNesting | Reg(r: nat)

  /** The slots a frame built with `cfg` has. R0 (always zero) and R1 (the stack pointer) are not saved. */
  predicate IsSlot(cfg: Config, s: Slot) {
    match s
    case Pad(k) => k < 3
    case Fsr => cfg.fpu
    case Msr => true
    case CriticalNesting => true
    case Reg(r) => 2 <= r <= 31
  }

  /** Where a slot lives, as an offset below the top of stack. */
  function SlotOffset(cfg: Config, s: Slot): (k: nat)
    requires IsSlot(cfg, s)
    ensures k < FrameWords(cfg)
  {
    var f := FpuWords(cfg);
    match s
    case Pad(k) => k
    case Fsr => 3
    case Msr => 3 + f
    case CriticalNesting => 4 + f
    case Reg(r) => 3 + f + r
  }

  /** The registers that carry no meaningful initial value: pre-loaded with their own number only for debugging. */
  predicate IsScratchRegister(r: nat) {
    6 <= r <= 12 || 16 <= r <= 18 || 20 <= r <= 31
  }

  /** What a debugger sees in scratch register r of a new task: its own number, except R8 which holds NULL. */
  function DebugValue(r: nat): int
    requires r < 32
  {
    if r == 8 then 0 else r
  }

  /** What a restored new task finds in each slot; `None` where the stack keeps whatever it held. */
  function SlotContent(cfg: Config, seed: TaskSeed, s: Slot): (c: Option<int>)
    requires IsSlot(cfg, s)
    ensures c.None? <==> s.Reg? && IsScratchRegister(s.r) && !cfg.preloadForDebugging
    ensures s.Reg? && IsScratchRegister(s.r) && cfg.preloadForDebugging ==> c == Some(DebugValue(s.r))
  {
    match s
    case Pad(_) => Some(0)
    case Fsr => Some(INITIAL_FSR)
    case Msr => Some(MsrWord(cfg.exceptions, seed.msr))
    case CriticalNesting => Some(0)
    case Reg(r) =>
      if r == 2 then Some(seed.sda2Base)
      else if r == 3 then Some(3)
      else if r == 4 then Some(4)
      else if r == 5 then Some(seed.parameters)
      else if r == 13 then Some(seed.sdaBase)
      else if r == 14 then Some(seed.code)
      else if r == 15 then Some(seed.taskReturnAddress)
      else if r == 19 then Some(0)
      else if cfg.preloadForDebugging then Some(DebugValue(r))
      else None
  }

  /** The slot kept at offset k: every offset of the frame belongs to exactly one slot. */
  function SlotAt(cfg: Config, k: nat): (s: Slot)
    requires k < FrameWords(cfg)
    ensures IsSlot(cfg, s) && SlotOffset(cfg, s) == k
  {
    var f := FpuWords(cfg);
    if k < 3 then Pad(k)
    else if cfg.fpu && k == 3 then Fsr
    else if k == 3 + f then Msr
    else if k == 4 + f then CriticalNesting
    else Reg(k - 3 - f)
  }

  lemma SlotOffsetInjective(cfg: Config, s: Slot, t: Slot)
    requires IsSlot(cfg, s) && IsSlot(cfg, t)
    requires SlotOffset(cfg, s) == SlotOffset(cfg, t)
    ensures s == t
  {
  }

  /** What pxPortInitialiseStack leaves k words below the top of stack; `None` where it steps over a word. */
  function FrameEntry(cfg: Config, seed: TaskSeed, k: nat): (e: Option<int>)
    requires k < FrameWords(cfg)
    ensures k < 3 || k == 4 + FpuWords(cfg) ==> e == Some(0)
    ensures e.None? ==> 9 + FpuWords(cfg) <= k < FrameWords(cfg)
  {
    SlotContent(cfg, seed, SlotAt(cfg, k))
  }

  // ---------------------------------------------------------------------------
  // Properties of the initial frame.

  /** The offsets of the named slots of a new task's frame, and what they hold. */
  lemma InitialSlots(cfg: Config, seed: TaskSeed)
    ensures var f := FpuWords(cfg);
      && FrameEntry(cfg, seed, 0) == Some(0)
      && FrameEntry(cfg, seed, 1) == Some(0)
      && FrameEntry(cfg, seed, 2) == Some(0)
      && (cfg.fpu ==> FrameEntry(cfg, seed, 3) == Some(INITIAL_FSR))
      && FrameEntry(cfg, seed, 3 + f) == Some(MsrWord(cfg.exceptions, seed.msr))
      && FrameEntry(cfg, seed, 4 + f) == Some(0)
      && FrameEntry(cfg, seed, 5 + f) == Some(seed.sda2Base)
      && FrameEntry(cfg, seed, 6 + f) == Some(3)
      && FrameEntry(cfg, seed, 7 + f) == Some(4)
      && FrameEntry(cfg, seed, 8 + f) == Some(seed.parameters)
      && FrameEntry(cfg, seed, 16 + f) == Some(seed.sdaBase)
      && FrameEntry(cfg, seed, 17 + f) == Some(seed.code)
      && FrameEntry(cfg, seed, 18 + f) == Some(seed.taskReturnAddress)
      && FrameEntry(cfg, seed, 22 + f) == Some(0)
  {
  }

  /**
   * Pre-loading the stack for debugging changes neither the size of the frame
   * nor any slot that matters: it only fills the scratch registers, which the
   * other build steps over.
   */
  lemma PreloadOnlyFillsScratchRegisters(cfg: Config, seed: TaskSeed, k: nat)
    requires !cfg.preloadForDebugging
    requires k < FrameWords(cfg)
    ensures var debug := cfg.(preloadForDebugging := true);
      && FrameWords(debug) == FrameWords(cfg)
      && var s := SlotAt(cfg, k);
         if s.Reg? && IsScratchRegister(s.r) then
           FrameEntry(cfg, seed, k) == None && FrameEntry(debug, seed, k) == Some(DebugValue(s.r))
         else
           FrameEntry(cfg, seed, k) == FrameEntry(debug, seed, k)
  {
  }

  /**
   * The words pxPortInitialiseStack steps over are exactly the scratch
   * registers of a build that does not pre-load them.
   */
  lemma SkippedSlots(cfg: Config, seed: TaskSeed, k: nat)
    requires k < FrameWords(cfg)
    ensures FrameEntry(cfg, seed, k) == None <==>
      !cfg.preloadForDebugging && SlotAt(cfg, k).Reg? && IsScratchRegister(SlotAt(cfg, k).r)
  {
  }

  // ---------------------------------------------------------------------------
  // pxPortInitialiseStack

  /**
   * The first n words of the frame below `top` are in place, and every word
   * outside them still holds what `before` says.
   */
  ghost predicate Laid(cfg: Config, seed: TaskSeed, stack: array<int>, before: seq<int>, top: nat, n: nat)
    reads stack
    requires |before| == stack.Length && top < stack.Length
    requires n <= FrameWords(cfg) && n <= top + 1
  {
    && (forall k :: 0 <= k < n ==> stack[top - k] == FrameEntry(cfg, seed, k).GetOr(before[top - k]))
    && (forall i :: 0 <= i < stack.Length && !(top - n < i <= top) ==> stack[i] == before[i])
  }

  /** The three known words at the bottom of the stack, and the FSR when the FPU is built in (port.c:142-153). */
  method PlaceKnownValues(cfg: Config, stack: array<int>, top: nat, seed: TaskSeed, ghost before: seq<int>)
      returns (p: int)
    requires |before| == stack.Length && FrameWords(cfg) <= top < stack.Length
    modifies stack
    requires Laid(cfg, seed, stack, before, top, 0)
    ensures p == top - 3 - FpuWords(cfg) && Laid(cfg, seed, stack, before, top, 3 + FpuWords(cfg))
  {
    p := top;
    stack[p] := 0;
    p := p - 1;
    stack[p] := 0;
    p := p - 1;
    stack[p] := 0;
    p := p - 1;

    if cfg.fpu {
      stack[p] := INITIAL_FSR;
      p := p - 1;
    }
  }

  /** The MSR and the critical nesting count (port.c:155-171). */
  method PlaceStatusWords(cfg: Config, stack: array<int>, top: nat, seed: TaskSeed, ghost before: seq<int>, p0: int)
      returns (p: int)
    requires |before| == stack.Length && FrameWords(cfg) <= top < stack.Length
    modifies stack
    requires p0 == top - 3 - FpuWords(cfg) && Laid(cfg, seed, stack, before, top, 3 + FpuWords(cfg))
    ensures p == top - 4 - FpuWords(cfg) && Laid(cfg, seed, stack, before, top, 5 + FpuWords(cfg))
  {
    p := p0;
    stack[p] := MsrWord(cfg.exceptions, seed.msr);
    p := p - 1;

    stack[p] := 0;  // the critical nesting count
  }

  /** R2 to R5: the small data area base, two constants and the task parameter (port.c:177-184). */
  method PlaceR2ToR5(cfg: Config, stack: array<int>, top: nat, seed: TaskSeed, ghost before: seq<int>, p0: int)
      returns (p: int)
    requires |before| == stack.Length && FrameWords(cfg) <= top < stack.Length
    modifies stack
    requires p0 == top - 4 - FpuWords(cfg) && Laid(cfg, seed, stack, before, top, 5 + FpuWords(cfg))
    ensures p == top - 8 - FpuWords(cfg) && Laid(cfg, seed, stack, before, top, 9 + FpuWords(cfg))
  {
    p := p0;
    p := p - 1;
    stack[p] := seed.sda2Base;
    p := p - 1;
    stack[p] := 3;
    p := p - 1;
    stack[p] := 4;
    p := p - 1;
    stack[p] := seed.parameters;
  }

  /** R6 to R12, written only when pre-loading for debugging (port.c:186-204). */
  method PlaceR6ToR12(cfg: Config, stack: array<int>, top: nat, seed: TaskSeed, ghost before: seq<int>, p0: int)
      returns (p: int)
    requires |before| == stack.Length && FrameWords(cfg) <= top < stack.Length
    modifies stack
    requires p0 == top - 8 - FpuWords(cfg) && Laid(cfg, seed, stack, before, top, 9 + FpuWords(cfg))
    ensures p == top - 16 - FpuWords(cfg) && Laid(cfg, seed, stack, before, top, 16 + FpuWords(cfg))
  {
    p := p0;
    if cfg.preloadForDebugging {
      p := PreloadR6ToR9(cfg, stack, top, seed, before, p);
      p := PreloadR10ToR12(cfg, stack, top, seed, before, p);
    } else {
      p := p - 8;
    }
  }

  /** R6 to R9 of the debugging block of R6 to R12 (port.c:187-194). */
  method PreloadR6ToR9(cfg: Config, stack: array<int>, top: nat, seed: TaskSeed, ghost before: seq<int>, p0: int)
      returns (p: int)
    requires |before| == stack.Length && FrameWords(cfg) <= top < stack.Length
    modifies stack
    requires cfg.preloadForDebugging
    requires p0 == top - 8 - FpuWords(cfg) && Laid(cfg, seed, stack, before, top, 9 + FpuWords(cfg))
    ensures p == top - 12 - FpuWords(cfg) && Laid(cfg, seed, stack, before, top, 13 + FpuWords(cfg))
  {
    p := p0;
    p := p - 1;
    stack[p] := 0x06;
    p := p - 1;
    stack[p] := 0x07;
    p := p - 1;
    stack[p] := 0;  // R8 is NULL
    p := p - 1;
    stack[p] := 0x09;
  }

  /** R10 to R12 of the debugging block of R6 to R12, and the step down to R13 (port.c:195-201). */
  method PreloadR10ToR12(cfg: Config, stack: array<int>, top: nat, seed: TaskSeed, ghost before: seq<int>, p0: int)
      returns (p: int)
    requires |before| == stack.Length && FrameWords(cfg) <= top < stack.Length
    modifies stack
    requires cfg.preloadForDebugging
    requires p0 == top - 12 - FpuWords(cfg) && Laid(cfg, seed, stack, before, top, 13 + FpuWords(cfg))
    ensures p == top - 16 - FpuWords(cfg) && Laid(cfg, seed, stack, before, top, 16 + FpuWords(cfg))
  {
    p := p0;
    p := p - 1;
    stack[p] := 0x0a;
    p := p - 1;
    stack[p] := 0x0b;
    p := p - 1;
    stack[p] := 0x0c;
    p := p - 1;
  }

  /** R13 (the small data area base) and the two return addresses R14 and R15 (port.c:206-210). */
  method PlaceR13ToR15(cfg: Config, stack: array<int>, top: nat, seed: TaskSeed, ghost before: seq<int>, p0: int)
      returns (p: int)
    requires |before| == stack.Length && FrameWords(cfg) <= top < stack.Length
    modifies stack
    requires p0 == top - 16 - FpuWords(cfg) && Laid(cfg, seed, stack, before, top, 16 + FpuWords(cfg))
    ensures p == top - 18 - FpuWords(cfg) && Laid(cfg, seed, stack, before, top, 19 + FpuWords(cfg))
  {
    p := p0;
    stack[p] := seed.sdaBase;  // R13
    p := p - 1;
    stack[p] := seed.code;  // R14, the interrupt return address
    p := p - 1;
    stack[p] := seed.taskReturnAddress;  // R15, the subroutine return address
  }

  /** R16 to R18, written only when pre-loading for debugging, and R19 (port.c:212-225). */
  method PlaceR16ToR19(cfg: Config, stack: array<int>, top: nat, seed: TaskSeed, ghost before: seq<int>, p0: int)
      returns (p: int)
    requires |before| == stack.Length && FrameWords(cfg) <= top < stack.Length
    modifies stack
    requires p0 == top - 18 - FpuWords(cfg) && Laid(cfg, seed, stack, before, top, 19 + FpuWords(cfg))
    ensures p == top - 22 - FpuWords(cfg) && Laid(cfg, seed, stack, before, top, 23 + FpuWords(cfg))
  {
    p := p0;
    if cfg.preloadForDebugging {
      p := p - 1;
      stack[p] := 0x10;
      p := p - 1;
      stack[p] := 0x11;
      p := p - 1;
      stack[p] := 0x12;
      p := p - 1;
    } else {
      p := p - 4;
    }

    stack[p] := 0;  // R19
  }

  /** R20 to R31, written only when pre-loading for debugging (port.c:227-256). */
  method PlaceR20ToR31(cfg: Config, stack: array<int>, top: nat, seed: TaskSeed, ghost before: seq<int>, p0: int)
      returns (p: int)
    requires |before| == stack.Length && FrameWords(cfg) <= top < stack.Length
    modifies stack
    requires p0 == top - 22 - FpuWords(cfg) && Laid(cfg, seed, stack, before, top, 23 + FpuWords(cfg))
    ensures p == top - 35 - FpuWords(cfg) && Laid(cfg, seed, stack, before, top, 35 + FpuWords(cfg))
  {
    p := p0;
    if cfg.preloadForDebugging {
      p := PreloadR20ToR23(cfg, stack, top, seed, before, p);
      p := PreloadR24ToR27(cfg, stack, top, seed, before, p);
      p := PreloadR28ToR31(cfg, stack, top, seed, before, p);
    } else {
      p := p - 13;
    }
  }

  /** R20 to R23 of the debugging block of R20 to R31 (port.c:228-236). */
  method PreloadR20ToR23(cfg: Config, stack: array<int>, top: nat, seed: TaskSeed, ghost before: seq<int>, p0: int)
      returns (p: int)
    requires |before| == stack.Length && FrameWords(cfg) <= top < stack.Length
    modifies stack
    requires cfg.preloadForDebugging
    requires p0 == top - 22 - FpuWords(cfg) && Laid(cfg, seed, stack, before, top, 23 + FpuWords(cfg))
    ensures p == top - 26 - FpuWords(cfg) && Laid(cfg, seed, stack, before, top, 27 + FpuWords(cfg))
  {
    p := p0;
    p := p - 1;
    stack[p] := 0x14;
    p := p - 1;
    stack[p] := 0x15;
    p := p - 1;
    stack[p] := 0x16;
    p := p - 1;
    stack[p] := 0x17;
  }

  /** R24 to R27 of the debugging block of R20 to R31 (port.c:237-244). */
  method PreloadR24ToR27(cfg: Config, stack: array<int>, top: nat, seed: TaskSeed, ghost before: seq<int>, p0: int)
      returns (p: int)
    requires |before| == stack.Length && FrameWords(cfg) <= top < stack.Length
    modifies stack
    requires cfg.preloadForDebugging
    requires p0 == top - 26 - FpuWords(cfg) && Laid(cfg, seed, stack, before, top, 27 + FpuWords(cfg))
    ensures p == top - 30 - FpuWords(cfg) && Laid(cfg, seed, stack, before, top, 31 + FpuWords(cfg))
  {
    p := p0;
    p := p - 1;
    stack[p] := 0x18;
    p := p - 1;
    stack[p] := 0x19;
    p := p - 1;
    stack[p] := 0x1a;
    p := p - 1;
    stack[p] := 0x1b;
  }

  /** R28 to R31 of the debugging block of R20 to R31, and the final step down (port.c:245-253). */
  method PreloadR28ToR31(cfg: Config, stack: array<int>, top: nat, seed: TaskSeed, ghost before: seq<int>, p0: int)
      returns (p: int)
    requires |before| == stack.Length && FrameWords(cfg) <= top < stack.Length
    modifies stack
    requires cfg.preloadForDebugging
    requires p0 == top - 30 - FpuWords(cfg) && Laid(cfg, seed, stack, before, top, 31 + FpuWords(cfg))
    ensures p == top - 35 - FpuWords(cfg) && Laid(cfg, seed, stack, before, top, 35 + FpuWords(cfg))
  {
    p := p0;
    p := p - 1;
    stack[p] := 0x1c;
    p := p - 1;
    stack[p] := 0x1d;
    p := p - 1;
    stack[p] := 0x1e;
    p := p - 1;
    stack[p] := 0x1f;
    p := p - 1;
  }

  /**
   * pxPortInitialiseStack: writes a new task's context image below `top` in
   * `stack` and returns the task's initial stack pointer. The caller's stack
   * must be large enough to hold the frame and the returned pointer.
   */
  method InitialiseStack(cfg: Config, stack: array<int>, top: nat, seed: TaskSeed) returns (sp: nat)
    requires top < stack.Length
    requires FrameWords(cfg) <= top
    modifies stack
    ensures sp == top - FrameWords(cfg)
    ensures forall k :: 0 <= k < FrameWords(cfg) ==>
      stack[top - k] == FrameEntry(cfg, seed, k).GetOr(old(stack[top - k]))
    ensures forall i :: 0 <= i < stack.Length && !(sp < i <= top) ==> stack[i] == old(stack[i])
  {
    ghost var before := stack[..];
    var p := PlaceKnownValues(cfg, stack, top, seed, before);
    p := PlaceStatusWords(cfg, stack, top, seed, before, p);
    p := PlaceR2ToR5(cfg, stack, top, seed, before, p);
    p := PlaceR6ToR12(cfg, stack, top, seed, before, p);
    p := PlaceR13ToR15(cfg, stack, top, seed, before, p);
    p := PlaceR16ToR19(cfg, stack, top, seed, before, p);
    p := PlaceR20ToR31(cfg, stack, top, seed, before, p);
    sp := p;
  }
}

