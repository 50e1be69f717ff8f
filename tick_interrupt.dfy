/**
 * What vPortTickISR does to the port's state, as a function of the state
 * before the interrupt (port.c:462-506), and what a run of interrupts adds up
 * to.
 *
 * With run time statistics built in, the timer interrupts ten times per RTOS
 * tick: every interrupt advances the 32-bit high frequency counter and clears
 * the timer, and one interrupt in ten, the one that brings the counter to a
 * multiple of ten, also runs the kernel tick. Without them every interrupt is
 * a kernel tick.
 */
module TickInterrupt {
  import opened PortConfig

  /** How many timer interrupts make one RTOS tick when run time statistics are built in. */
  const STATS_DIVIDER: nat := 10

  /** The variables the tick handler updates: ulHighFrequencyTimerTicks and ulTaskSwitchRequested. */
  datatype TickState = TickState(ticks: int, switchRequested: int)

  predicate ValidTickState(s: TickState) {
    IsUint32(s.ticks) && IsUint32(s.switchRequested)
  }

  /** The state after an interrupt, and the calls it made, in order. */
  datatype TickResult = TickResult(state: TickState, events: seq<Event>)

  /** `ulHighFrequencyTimerTicks++` on a 32-bit counter. */
  function NextCount(t: int): (c: int)
    requires IsUint32(t)
    ensures IsUint32(c)
    ensures t < UINT32_LIMIT - 1 ==> c == t + 1
    ensures t == UINT32_LIMIT - 1 ==> c == 0
  {
    (t + 1) % UINT32_LIMIT
  }

  /** Whether an interrupt that left the counter at `count` runs the kernel tick. */
  predicate KernelTickDue(stats: bool, count: int) {
    !stats || count % STATS_DIVIDER == 0
  }

  /**
   * With statistics built in, the counts that run the kernel tick are ten
   * apart: after one, the next nine counts run none and the tenth runs one.
   */
  lemma KernelTickPeriod(count: int)
    requires KernelTickDue(true, count)
    ensures forall c :: count < c < count + STATS_DIVIDER ==> !KernelTickDue(true, c)
    ensures KernelTickDue(true, count + STATS_DIVIDER)
  {
    forall c | count < c < count + STATS_DIVIDER
      ensures !KernelTickDue(true, c)
    {
      ModShift(count, c - count);
    }
    ModShift(count, STATS_DIVIDER);
  }

  /** Past a multiple of ten, the remainder is the distance travelled. */
  lemma ModShift(count: int, k: int)
    requires count % STATS_DIVIDER == 0
    ensures (count + k) % STATS_DIVIDER == k % STATS_DIVIDER
  {
    var q := count / STATS_DIVIDER;
    assert count == 10 * q;
  }

  /**
   * One run of vPortTickISR. `switchDue` is what xTaskIncrementTick() would
   * answer (whether a context switch is needed); it is only consulted when the
   * kernel tick runs.
   */
  function TickStep(stats: bool, s: TickState, switchDue: bool): (r: TickResult)
    requires ValidTickState(s)
    ensures ValidTickState(r.state)
  {
    var ticks := if stats then NextCount(s.ticks) else s.ticks;
    var due := KernelTickDue(stats, ticks);
    var kernel := if due then [ClearTimerInterrupt, IncrementTick] else [];
    var flag := if due && switchDue then 1 else s.switchRequested;
    TickResult(TickState(ticks, flag), kernel + if stats then [ClearTimerInterrupt] else [])
  }

  /** What one interrupt does, in the terms of the port's promise. */
  lemma TickStepEffect(stats: bool, s: TickState, switchDue: bool)
    requires ValidTickState(s)
    ensures var r := TickStep(stats, s, switchDue);
      && r.state.ticks == (if stats then (s.ticks + 1) % UINT32_LIMIT else s.ticks)
      && (Count(r.events, IncrementTick) == 1 <==> KernelTickDue(stats, r.state.ticks))
      && (Count(r.events, IncrementTick) == 0 <==> !KernelTickDue(stats, r.state.ticks))
      && Count(r.events, ClearTimerInterrupt) == (if stats then 1 else 0) + Count(r.events, IncrementTick)
      && r.state.switchRequested == if KernelTickDue(stats, r.state.ticks) && switchDue then 1 else s.switchRequested
  {
    var r := TickStep(stats, s, switchDue);
    var due := KernelTickDue(stats, r.state.ticks);
    var kernel := if due then [ClearTimerInterrupt, IncrementTick] else [];
    var tail := if stats then [ClearTimerInterrupt] else [];
    assert r.events == kernel + tail;
    CountConcat(kernel, tail, IncrementTick);
    CountConcat(kernel, tail, ClearTimerInterrupt);
    if due {
      assert kernel[1..] == [IncrementTick];
      assert kernel[1..][1..] == [];
    }
    if stats {
      assert tail[1..] == [];
    }
  }

  /** A run of interrupts, `switchDues[i]` being xTaskIncrementTick()'s answer at the i-th. */
  function Run(stats: bool, s: TickState, switchDues: seq<bool>): (r: TickResult)
    requires ValidTickState(s)
    ensures ValidTickState(r.state)
    decreases |switchDues|
  {
    if switchDues == [] then TickResult(s, [])
    else
      var first := TickStep(stats, s, switchDues[0]);
      var rest := Run(stats, first.state, switchDues[1..]);
      TickResult(rest.state, first.events + rest.events)
  }

  /** The counter after n interrupts: advanced by n modulo 2^32 with statistics built in, untouched otherwise. */
  lemma {:induction false} RunCounter(stats: bool, s: TickState, switchDues: seq<bool>)
    requires ValidTickState(s)
    ensures Run(stats, s, switchDues).state.ticks
      == if stats then (s.ticks + |switchDues|) % UINT32_LIMIT else s.ticks
    decreases |switchDues|
  {
    if switchDues != [] {
      var first := TickStep(stats, s, switchDues[0]);
      RunCounter(stats, first.state, switchDues[1..]);
      if stats {
        ModSucc(s.ticks, |switchDues| - 1);
      }
    }
  }

  lemma ModSucc(t: int, n: nat)
    requires IsUint32(t)
    ensures ((t + 1) % UINT32_LIMIT + n) % UINT32_LIMIT == (t + 1 + n) % UINT32_LIMIT
  {
  }

  /**
   * With statistics built in and no counter overflow, n interrupts run the
   * kernel tick once for every multiple of ten the counter passes, and clear
   * the timer once more than that per interrupt.
   */
  lemma {:induction false} RunTickCount(s: TickState, switchDues: seq<bool>)
    requires ValidTickState(s)
    requires s.ticks + |switchDues| < UINT32_LIMIT
    ensures var r := Run(true, s, switchDues);
      && r.state.ticks == s.ticks + |switchDues|
      && Count(r.events, IncrementTick) == (s.ticks + |switchDues|) / STATS_DIVIDER - s.ticks / STATS_DIVIDER
      && Count(r.events, ClearTimerInterrupt) == |switchDues| + Count(r.events, IncrementTick)
    decreases |switchDues|
  {
    if switchDues != [] {
      var first := TickStep(true, s, switchDues[0]);
      var rest := Run(true, first.state, switchDues[1..]);
      assert Run(true, s, switchDues) == TickResult(rest.state, first.events + rest.events);
      TickStepEffect(true, s, switchDues[0]);
      assert first.state.ticks == s.ticks + 1;
      RunTickCount(first.state, switchDues[1..]);
      CountConcat(first.events, rest.events, IncrementTick);
      CountConcat(first.events, rest.events, ClearTimerInterrupt);
      TickCountStep(s.ticks, |switchDues| - 1, Count(first.events, IncrementTick), Count(rest.events, IncrementTick));
    }
  }

  /** The kernel ticks of one interrupt and of the n that follow it add up. */
  lemma TickCountStep(t: nat, n: nat, here: int, later: int)
    requires here == if (t + 1) % STATS_DIVIDER == 0 then 1 else 0
    requires later == (t + 1 + n) / STATS_DIVIDER - (t + 1) / STATS_DIVIDER
    ensures here + later == (t + 1 + n) / STATS_DIVIDER - t / STATS_DIVIDER
  {
    DivStep(t);
  }

  /** Adding one to t passes a multiple of ten exactly when t + 1 is one. */
  lemma DivStep(t: nat)
    ensures (t + 1) / STATS_DIVIDER - t / STATS_DIVIDER == if (t + 1) % STATS_DIVIDER == 0 then 1 else 0
  {
  }

  /**
   * From a counter just reset to zero, whatever the switch flag, n interrupts
   * leave the counter at n and give n / 10 kernel ticks.
   */
  lemma TicksAfterReset(flag: int, switchDues: seq<bool>)
    requires IsUint32(flag)
    requires |switchDues| < UINT32_LIMIT
    ensures var r := Run(true, TickState(0, flag), switchDues);
      && r.state.ticks == |switchDues|
      && Count(r.events, IncrementTick) == |switchDues| / STATS_DIVIDER
  {
    RunTickCount(TickState(0, flag), switchDues);
  }

  /** Without statistics every interrupt is a kernel tick and clears the timer once. */
  lemma {:induction false} RunWithoutStats(s: TickState, switchDues: seq<bool>)
    requires ValidTickState(s)
    ensures var r := Run(false, s, switchDues);
      && r.state.ticks == s.ticks
      && Count(r.events, IncrementTick) == |switchDues|
      && Count(r.events, ClearTimerInterrupt) == |switchDues|
    decreases |switchDues|
  {
    if switchDues != [] {
      var first := TickStep(false, s, switchDues[0]);
      var rest := Run(false, first.state, switchDues[1..]);
      TickStepEffect(false, s, switchDues[0]);
      RunWithoutStats(first.state, switchDues[1..]);
      CountConcat(first.events, rest.events, IncrementTick);
      CountConcat(first.events, rest.events, ClearTimerInterrupt);
    }
  }

  /** Whether the i-th interrupt of a run starting from counter t0 runs the kernel tick. */
  predicate DueAt(stats: bool, t0: int, i: nat) {
    KernelTickDue(stats, if stats then (t0 + i + 1) % UINT32_LIMIT else t0)
  }

  /**
   * ulTaskSwitchRequested is only ever set, never cleared, by the handler: after
   * a run it is 1 if some kernel tick of the run asked for a switch, and as it
   * was otherwise.
   */
  lemma {:induction false} RunSwitchFlag(stats: bool, s: TickState, switchDues: seq<bool>)
    requires ValidTickState(s)
    ensures var flag := Run(stats, s, switchDues).state.switchRequested;
      if exists i :: 0 <= i < |switchDues| && switchDues[i] && DueAt(stats, s.ticks, i)
      then flag == 1
      else flag == s.switchRequested
    decreases |switchDues|
  {
    if switchDues != [] {
      var first := TickStep(stats, s, switchDues[0]);
      var tail := switchDues[1..];
      RunSwitchFlag(stats, first.state, tail);
      var shifted := exists j :: 0 <= j < |tail| && tail[j] && DueAt(stats, first.state.ticks, j);
      var here := exists i :: 0 <= i < |switchDues| && switchDues[i] && DueAt(stats, s.ticks, i);
      forall j | 0 <= j < |tail|
        ensures DueAt(stats, first.state.ticks, j) == DueAt(stats, s.ticks, j + 1)
      {
        if stats {
          ModSucc(s.ticks, j + 1);
        }
      }
      if shifted {
        var j :| 0 <= j < |tail| && tail[j] && DueAt(stats, first.state.ticks, j);
        assert switchDues[j + 1] && DueAt(stats, s.ticks, j + 1);
      } else if here {
        var i :| 0 <= i < |switchDues| && switchDues[i] && DueAt(stats, s.ticks, i);
        if i > 0 {
          assert tail[i - 1] && DueAt(stats, first.state.ticks, i - 1);
        }
      } else {
        assert !(switchDues[0] && DueAt(stats, s.ticks, 0));
      }
    }
  }

  /**
   * The counter wraps at 2^32, which is not a multiple of ten: the interrupts
   * that carry it from 4294967290 (a kernel tick) through the wrap to 0 (the
   * next kernel tick) number six, not ten.
   */
  lemma WrapShortensTickPeriod(s: TickState, switchDues: seq<bool>)
    requires s.ticks == UINT32_LIMIT - 6 && IsUint32(s.switchRequested)
    requires |switchDues| == 6
    ensures KernelTickDue(true, s.ticks)
    ensures Count(Run(true, s, switchDues[..5]).events, IncrementTick) == 0
    ensures Count(Run(true, s, switchDues).events, IncrementTick) == 1
    ensures Run(true, s, switchDues).state.ticks == 0
  {
    var before, lastOne := switchDues[..5], switchDues[5..];
    assert before + lastOne == switchDues;
    RunTickCount(s, before);
    var a := Run(true, s, before);
    RunSplit(true, s, before, lastOne);
    var b := Run(true, a.state, lastOne);
    LastInterruptBeforeWrap(a.state, lastOne);
    CountConcat(a.events, b.events, IncrementTick);
  }

  /** The interrupt that wraps the counter to zero runs the kernel tick. */
  lemma LastInterruptBeforeWrap(s: TickState, switchDues: seq<bool>)
    requires ValidTickState(s) && s.ticks == UINT32_LIMIT - 1
    requires |switchDues| == 1
    ensures Run(true, s, switchDues).state.ticks == 0
    ensures Count(Run(true, s, switchDues).events, IncrementTick) == 1
  {
    var first := TickStep(true, s, switchDues[0]);
    assert switchDues[1..] == [];
    assert Run(true, s, switchDues) == TickResult(first.state, first.events + []);
    assert first.events + [] == first.events;
    TickStepEffect(true, s, switchDues[0]);
  }

  /** A run split in two is the first part followed by the second, from where the first left off. */
  lemma {:induction false} RunSplit(stats: bool, s: TickState, xs: seq<bool>, ys: seq<bool>)
    requires ValidTickState(s)
    ensures var a := Run(stats, s, xs);
      var b := Run(stats, a.state, ys);
      Run(stats, s, xs + ys) == TickResult(b.state, a.events + b.events)
    decreases |xs|
  {
    if xs == [] {
      assert xs + ys == ys;
    } else {
      var first := TickStep(stats, s, xs[0]);
      assert (xs + ys)[0] == xs[0];
      assert (xs + ys)[1..] == xs[1..] + ys;
      RunSplit(stats, first.state, xs[1..], ys);
      var a := Run(stats, first.state, xs[1..]);
      var b := Run(stats, a.state, ys);
      assert first.events + (a.events + b.events) == (first.events + a.events) + b.events;
    }
  }
}
