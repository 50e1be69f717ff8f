/**
 * The port layer's global state and the operations that update it
 * (port.c): the critical nesting count, the interrupt stack pointer, the
 * context switch request flag, the run time statistics counter and the
 * interrupt controller's initialisation latch.
 *
 * Calls the port makes into the kernel, the application and the Xilinx
 * drivers are appended to `calls` instead of being made; what those calls
 * return is passed in. A configASSERT whose condition is false is recorded as
 * an AssertFailed event and execution continues, as it does in a build whose
 * configASSERT does not halt.
 */
module MicroBlazePort {
  import opened PortConfig
  import opened TickInterrupt
  import opened InterruptController

  /** uxCriticalNesting before the scheduler starts: non-zero, so that interrupts stay disabled. */
  const INITIAL_NESTING_VALUE: int := 0xff

  /** The value vPortEndScheduler's assertion demands, which nothing sets: ending the scheduler always asserts. */
  const END_SCHEDULER_NESTING: int := 1000

  /** The number of tasks at which a task's return leaves only the idle task. */
  const ONLY_IDLE_TASK_COUNT: nat := 2

  /** A value of the source's uint8_t interrupt identifiers. */
  type InterruptId = x: int | 0 <= x < 256

  /**
   * The start-up nesting count keeps interrupts disabled, and is not the value
   * vPortEndScheduler demands: ending the scheduler from the start-up state
   * records a failed assertion.
   */
  lemma StartUpNestingFailsEndScheduler()
    ensures INITIAL_NESTING_VALUE != 0
    ensures AssertUnless(INITIAL_NESTING_VALUE == END_SCHEDULER_NESTING, EndSchedulerSite) == [AssertFailed(EndSchedulerSite)]
  {
  }

  class Port {
    /** The build the port was compiled with. */
    const cfg: Config

    /** uxCriticalNesting */
    var criticalNesting: int
    /** pulISRStack, as a word address */
    var isrStack: int
    /** ulTaskSwitchRequested */
    var taskSwitchRequested: int
    /** ulHighFrequencyTimerTicks (only present with run time statistics) */
    var highFrequencyTimerTicks: int
    /** lInterruptControllerInitialised, the static latch of prvEnsureInterruptControllerIsInitialised */
    var controllerInitialised: int
    /** The calls made so far into code outside the port, in order. */
    var calls: seq<Event>

    predicate Valid()
      reads this
    {
      && IsUint32(criticalNesting)
      && IsUint32(taskSwitchRequested)
      && IsUint32(highFrequencyTimerTicks)
    }

    /** The tick handler's view of the state. */
    function Tick(): TickState
      reads this
    {
      TickState(highFrequencyTimerTicks, taskSwitchRequested)
    }

    /** The globals as the C start-up code leaves them. */
    constructor(cfg: Config)
      ensures Valid()
      ensures this.cfg == cfg
      ensures criticalNesting == INITIAL_NESTING_VALUE
      ensures isrStack == 0 && taskSwitchRequested == 0 && highFrequencyTimerTicks == 0
      ensures controllerInitialised == PD_FALSE
      ensures calls == []
    {
      this.cfg := cfg;
      criticalNesting := INITIAL_NESTING_VALUE;
      isrStack := 0;
      taskSwitchRequested := 0;
      highFrequencyTimerTicks := 0;
      controllerInitialised := PD_FALSE;
      calls := [];
    }

    // -------------------------------------------------------------------------
    // Calls out of the port.

    /** vApplicationClearTimerInterrupt() */
    method ApplicationClearTimerInterrupt()
      modifies this`calls
      ensures calls == old(calls) + [ClearTimerInterrupt]
    {
      calls := calls + [ClearTimerInterrupt];
    }

    /** xTaskIncrementTick(), whose answer the kernel gives as `answer`. */
    method TaskIncrementTick(answer: int) returns (r: int)
      modifies this`calls
      ensures r == answer
      ensures calls == old(calls) + [IncrementTick]
    {
      calls := calls + [IncrementTick];
      r := answer;
    }

    /** A configASSERT at `site`. */
    method ConfigAssert(c: bool, site: AssertSite)
      modifies this`calls
      ensures calls == old(calls) + AssertUnless(c, site)
    {
      if !c {
        calls := calls + [AssertFailed(site)];
      }
    }

    // -------------------------------------------------------------------------
    // Scheduler start and end.

    /**
     * xPortStartScheduler: sets up the tick, moves the interrupt stack two
     * words below the start-up stack `stackSymbol` (the `_stack` symbol), and
     * starts the first task. The call that starts the first task does not
     * return on the target; if it did, the result is pdFALSE.
     */
    method StartScheduler(stackSymbol: int) returns (r: int)
      modifies this`isrStack, this`calls
      ensures r == PD_FALSE
      ensures isrStack == stackSymbol - 2
      ensures calls == old(calls) + [SetupTimerInterrupt, StartFirstTask]
    {
      calls := calls + [SetupTimerInterrupt];
      isrStack := stackSymbol;
      isrStack := isrStack - 2;
      calls := calls + [StartFirstTask];
      r := PD_FALSE;
    }

    /** vPortEndScheduler: not supported; it asserts a nesting count nothing sets. */
    method EndScheduler()
      modifies this`calls
      ensures calls == old(calls) + AssertUnless(criticalNesting == END_SCHEDULER_NESTING, EndSchedulerSite)
    {
      ConfigAssert(criticalNesting == END_SCHEDULER_NESTING, EndSchedulerSite);
    }

    /**
     * prvTaskExitError, reached when the function of a task returns:
     * pcTaskGetName(NULL) answers `taskName` and uxTaskGetNumberOfTasks()
     * answers `numberOfTasks`. It warns, warns again if only the idle task
     * would remain, and deletes the calling task.
     */
    method TaskExitError(taskName: string, numberOfTasks: nat)
      modifies this`calls
      ensures calls == old(calls) + [GetTaskName, ReturnWarning(taskName), GetNumberOfTasks]
        + (if numberOfTasks == ONLY_IDLE_TASK_COUNT then [OnlyIdleTaskWarning] else [])
        + [DeleteCurrentTask]
    {
      calls := calls + [GetTaskName];
      calls := calls + [ReturnWarning(taskName)];
      calls := calls + [GetNumberOfTasks];
      if numberOfTasks == ONLY_IDLE_TASK_COUNT {
        calls := calls + [OnlyIdleTaskWarning];
      }
      calls := calls + [DeleteCurrentTask];
    }

    // -------------------------------------------------------------------------
    // The tick interrupt and the run time statistics counter.

    /**
     * vPortTickISR, with xTaskIncrementTick() answering `incrementTickAnswer`
     * if it is called.
     */
    method TickIsr(incrementTickAnswer: int)
      requires Valid()
      modifies this`highFrequencyTimerTicks, this`taskSwitchRequested, this`calls
      ensures Valid()
      ensures var r := TickStep(cfg.runTimeStats, old(Tick()), incrementTickAnswer != PD_FALSE);
        Tick() == r.state && calls == old(calls) + r.events
    {
      var due := true;
      if cfg.runTimeStats {
        highFrequencyTimerTicks := (highFrequencyTimerTicks + 1) % UINT32_LIMIT;
        due := highFrequencyTimerTicks % STATS_DIVIDER == 0;
      }
      if due {
        ApplicationClearTimerInterrupt();
        var switchNeeded := TaskIncrementTick(incrementTickAnswer);
        if switchNeeded != PD_FALSE {
          taskSwitchRequested := 1;
        }
      }
      if cfg.runTimeStats {
        ApplicationClearTimerInterrupt();
      }
    }

    /** xCONFIGURE_TIMER_FOR_RUN_TIME_STATS: resets the counter. */
    method ConfigureTimerForRunTimeStats()
      requires cfg.runTimeStats
      requires Valid()
      modifies this`highFrequencyTimerTicks
      ensures Valid()
      ensures highFrequencyTimerTicks == 0
    {
      highFrequencyTimerTicks := 0;
    }

    /** xGET_RUN_TIME_COUNTER_VALUE: the number of timer interrupts since the reset, modulo 2^32. */
    method GetRunTimeCounterValue() returns (c: int)
      requires cfg.runTimeStats
      requires Valid()
      ensures IsUint32(c)
      ensures c == highFrequencyTimerTicks
    {
      c := highFrequencyTimerTicks;
    }

    // -------------------------------------------------------------------------
    // The interrupt controller.

    /**
     * prvInitialiseInterruptController, the driver answering `d` to
     * XIntc_Initialize and XIntc_Start.
     */
    method InitialiseController(d: DriverStatus) returns (status: int)
      modifies this`calls
      ensures status == InitialiseStatus(d)
      ensures calls == old(calls) + InitialiseEvents(cfg, d)
    {
      calls := calls + [IntcInitialize];
      status := d.initialize;
      ghost var initialised := calls;

      if status == XST_SUCCESS {
        calls := calls + [ExceptionInit];
        calls := calls + [SetServiceAllIsrs];
        if cfg.exceptions && cfg.installExceptionHandlers {
          calls := calls + [InstallExceptionHandlers];
        }
        calls := calls + [IntcStart];
        assert calls == initialised + SetUpEvents(cfg);
        status := d.start;

        if status == XST_SUCCESS {
          status := PD_PASS;
        } else {
          status := PD_FAIL;
        }
      }
      assert status == InitialiseStatus(d);

      ConfigAssert(status == PD_PASS, InitialiseControllerSite);
    }

    /** prvEnsureInterruptControllerIsInitialised */
    method EnsureControllerInitialised(d: DriverStatus) returns (status: int)
      modifies this`controllerInitialised, this`calls
      ensures var r := Ensure(cfg, old(controllerInitialised), d);
        && status == r.status
        && controllerInitialised == r.latch
        && calls == old(calls) + r.events
    {
      if controllerInitialised != PD_TRUE {
        status := InitialiseController(d);

        if status == PD_PASS {
          controllerInitialised := PD_TRUE;
        }
      } else {
        status := PD_PASS;
      }
    }

    /** vPortEnableInterrupt */
    method EnableInterrupt(id: InterruptId, d: DriverStatus)
      modifies this`controllerInitialised, this`calls
      ensures var r := Ensure(cfg, old(controllerInitialised), d);
        && controllerInitialised == r.latch
        && calls == old(calls) + r.events
          + (if r.status == PD_PASS then [EnterCritical, IntcEnable(id), ExitCritical] else [])
          + AssertUnless(r.status != 0, EnableInterruptSite)
    {
      var status := EnsureControllerInitialised(d);
      if status == PD_PASS {
        calls := calls + [EnterCritical];
        calls := calls + [IntcEnable(id)];
        calls := calls + [ExitCritical];
      }

      ConfigAssert(status != 0, EnableInterruptSite);
    }

    /** vPortDisableInterrupt */
    method DisableInterrupt(id: InterruptId, d: DriverStatus)
      modifies this`controllerInitialised, this`calls
      ensures var r := Ensure(cfg, old(controllerInitialised), d);
        && controllerInitialised == r.latch
        && calls == old(calls) + r.events
          + (if r.status == PD_PASS then [IntcDisable(id)] else [])
          + AssertUnless(r.status != 0, DisableInterruptSite)
    {
      var status := EnsureControllerInitialised(d);

      if status == PD_PASS {
        calls := calls + [IntcDisable(id)];
      }

      ConfigAssert(status != 0, DisableInterruptSite);
    }

    /** xPortInstallInterruptHandler, XIntc_Connect answering `connect` if it is called. */
    method InstallInterruptHandler(id: InterruptId, handler: Word, callbackRef: Word, d: DriverStatus, connect: int)
      returns (status: int)
      modifies this`controllerInitialised, this`calls
      ensures var r := Ensure(cfg, old(controllerInitialised), d);
        && status == InstallStatus(r.status, connect)
        && controllerInitialised == r.latch
        && calls == old(calls) + r.events
          + (if r.status == PD_PASS then [IntcConnect(id, handler, callbackRef)] else [])
          + AssertUnless(status == PD_PASS, InstallHandlerSite)
    {
      status := EnsureControllerInitialised(d);

      if status == PD_PASS {
        calls := calls + [IntcConnect(id, handler, callbackRef)];
        status := connect;
      }

      if status == XST_SUCCESS {
        status := PD_PASS;
      }

      ConfigAssert(status == PD_PASS, InstallHandlerSite);
    }

    /** xPortInstallFastInterruptHandler, XIntc_ConnectFastHandler answering `connect` if it is called. */
    method InstallFastInterruptHandler(id: InterruptId, handler: Word, d: DriverStatus, connect: int)
      returns (status: int)
      modifies this`controllerInitialised, this`calls
      ensures var r := Ensure(cfg, old(controllerInitialised), d);
        && status == InstallStatus(r.status, connect)
        && controllerInitialised == r.latch
        && calls == old(calls) + r.events
          + (if r.status == PD_PASS then [IntcConnectFast(id, handler)] else [])
          + AssertUnless(status == PD_PASS, InstallFastHandlerSite)
    {
      status := EnsureControllerInitialised(d);

      if status == PD_PASS {
        calls := calls + [IntcConnectFast(id, handler)];
        status := connect;
      }

      if status == XST_SUCCESS {
        status := PD_PASS;
      }

      ConfigAssert(status == PD_PASS, InstallFastHandlerSite);
    }
  }
}
