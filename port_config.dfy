/**
 * Types, build switches, status codes and the observable events shared by the
 * model of the FreeRTOS MicroBlaze port layer.
 */
module PortConfig {

  /** A stack word: StackType_t / UINTPTR on the 32-bit MicroBlaze. */
  type Word = w: int | 0 <= w < 0x1_0000_0000

  /** 2^32: every `uint32_t` / `UBaseType_t` value of the port is below this. */
  const UINT32_LIMIT: int := 0x1_0000_0000

  predicate IsUint32(x: int) {
    0 <= x < UINT32_LIMIT
  }

  /** FreeRTOS status values (projdefs.h). */
  const PD_FALSE: int := 0
  const PD_TRUE: int := 1
  const PD_FAIL: int := 0
  const PD_PASS: int := 1

  /** The Xilinx driver's success status (xstatus.h). Note that it equals PD_FAIL. */
  const XST_SUCCESS: int := 0

  datatype Option<+T> = None | Some(value: T) {
    function GetOr(default: T): T {
      match this
      case Some(v) => v
      case None => default
    }
  }

  /** The build-time switches the port's behaviour depends on. */
  datatype Config = Config(
    fpu: bool,                      // XPAR_MICROBLAZE_USE_FPU != 0
    exceptions: bool,               // MICROBLAZE_EXCEPTIONS_ENABLED == 1
    preloadForDebugging: bool,      // portPRE_LOAD_STACK_FOR_DEBUGGING is defined
    runTimeStats: bool,             // configGENERATE_RUN_TIME_STATS == 1
    installExceptionHandlers: bool  // configINSTALL_EXCEPTION_HANDLERS == 1
  )

  /** The configASSERT sites of the port. */
  datatype AssertSite =
    | InitialiseControllerSite
    | EnableInterruptSite
    | DisableInterruptSite
    | InstallHandlerSite
    | InstallFastHandlerSite
    | EndSchedulerSite

  /**
   * A call the port makes into code outside it (the kernel, the application,
   * the Xilinx drivers), or a failed configASSERT. The model records these in
   * order instead of performing them.
   */
  datatype Event =
    | ClearTimerInterrupt                             // vApplicationClearTimerInterrupt()
    | IncrementTick                                   // xTaskIncrementTick()
    | IntcInitialize                                  // XIntc_Initialize()
    | ExceptionInit                                   // Xil_ExceptionInit()
    | SetServiceAllIsrs                               // XIntc_SetIntrSvcOption(.., XIN_SVC_ALL_ISRS_OPTION)
    | InstallExceptionHandlers                        // vPortExceptionsInstallHandlers()
    | IntcStart                                       // XIntc_Start(.., XIN_REAL_MODE)
    | EnterCritical                                   // portENTER_CRITICAL()
    | ExitCritical                                    // portEXIT_CRITICAL()
    | IntcEnable(id: nat)                             // XIntc_Enable()
    | IntcDisable(id: nat)                            // XIntc_Disable()
    | IntcConnect(id: nat, handler: Word, callbackRef: Word)  // XIntc_Connect()
    | IntcConnectFast(id: nat, handler: Word)         // XIntc_ConnectFastHandler()
    | SetupTimerInterrupt                             // vApplicationSetupTimerInterrupt()
    | StartFirstTask                                  // vPortStartFirstTask()
    | GetTaskName                                     // pcTaskGetName(NULL)
    | ReturnWarning(taskName: string)                 // the first xil_printf of prvTaskExitError
    | GetNumberOfTasks                                // uxTaskGetNumberOfTasks()
    | OnlyIdleTaskWarning                             // the second xil_printf of prvTaskExitError
    | DeleteCurrentTask                               // vTaskDelete(NULL)
    | AssertFailed(site: AssertSite)                  // a configASSERT whose condition is false

  /** How many times `e` occurs in `events`. */
  function Count(events: seq<Event>, e: Event): (n: nat)
    ensures n <= |events|
  {
    if events == [] then 0
    else (if events[0] == e then 1 else 0) + Count(events[1..], e)
  }

  lemma {:induction false} CountConcat(xs: seq<Event>, ys: seq<Event>, e: Event)
    ensures Count(xs + ys, e) == Count(xs, e) + Count(ys, e)
  {
    if xs == [] {
      assert xs + ys == ys;
    } else {
      assert (xs + ys)[1..] == xs[1..] + ys;
      CountConcat(xs[1..], ys, e);
    }
  }

  /** An event that does not occur is counted zero times. */
  lemma {:induction false} CountAbsent(events: seq<Event>, e: Event)
    requires e !in events
    ensures Count(events, e) == 0
  {
    if events != [] {
      assert events == [events[0]] + events[1..];
      CountAbsent(events[1..], e);
    }
  }
}
