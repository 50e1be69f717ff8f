# FreeRTOS MicroBlaze port layer, modelled in Dafny

This project models the C port layer that adapts the FreeRTOS kernel to the
Xilinx MicroBlaze soft processor (`portable/GCC/MicroBlazeV9/port.c`), and
proves what it does:

- **pxPortInitialiseStack** writes a new task's initial context image, word
  by word and downward, into the caller's stack array, and returns the task's
  initial stack pointer (module `StackFrame`). The image is specified slot by
  slot, independently of the order of the writes. The writer, which follows
  the source's sequence of stores and skips, is proved to lay out exactly that
  image, to return `top - 35` (`top - 36` with the FPU) in every build, and
  to touch nothing else. The writer is split into helpers, one per block of
  the source, with the longer debugging blocks split in two or three; the
  stores and pointer steps are the source's, in its order.
- **vPortTickISR** and the run time statistics counter (modules
  `TickInterrupt` and `MicroBlazePort`). One interrupt is a pure function
  of the state before it. Lemmas about runs of interrupts give the number of
  kernel ticks and timer clears, and when the context switch flag is raised.
- **The interrupt controller** (modules `InterruptController` and
  `MicroBlazePort`): the once-only initialisation latch, the driver start-up
  sequence, the enable, disable and install wrappers, and the status mapping
  between the driver's XST_ codes and the kernel's pdPASS / pdFAIL.
- **The port's globals** (class `MicroBlazePort.Port`): the critical nesting
  count, the interrupt stack pointer, the switch request flag, the statistics
  counter and the controller latch. The methods update them as the C functions do.

Calls into the kernel, the application and the Xilinx drivers are not made.
They are appended, in order, to the port's `calls` log as `Event` values.
What those calls return is an input:
- the XIntc_ statuses;
- xTaskIncrementTick's answer;
- pcTaskGetName's and uxTaskGetNumberOfTasks's answers in prvTaskExitError;
- the value of mfmsr();
- the link-time symbols _SDA2_BASE_, _SDA_BASE_ and _stack.

A configASSERT whose condition is false is logged as `AssertFailed(site)`, and
execution continues.

Three consequences of the code as written are proved rather than corrected:

- pdFAIL and XST_SUCCESS are both 0. So when XIntc_Start fails, the install
  functions report pdPASS without connecting the handler
  (`StartFailureReportedAsPass`). A connect call failing with code 1 is also
  reported as pdPASS (`InstallStatus`).
- The statistics counter wraps at 2^32, which is not a multiple of ten. The
  kernel tick after count 4294967290 therefore comes six interrupts later
  instead of ten (`WrapShortensTickPeriod`).
- XIntc_Initialize's failure codes are not told apart from pdPASS. When it
  fails with code 1, the controller counts as initialised although it was never
  started, and the latch keeps it so for every later call (`InitialiseStatus`,
  `Ensure`).

## Model

| member | source | states |
|---|---|---|
| StackFrame.InitialMsr | work/Counter/rgb_led/ps7_cortexa9_0/freertos10_xilinx_domain/bsp/ps7_cortexa9_0/libsrc/freertos10_xilinx_v1_14/src/Source/portable/GCC/MicroBlazeV9/port.c:155-167 | The MSR stored for a new task has IE cleared, has EE set when the build enables exceptions and keeps it as found otherwise, and keeps every other bit of the current MSR |
| StackFrame.SlotOffset | work/Counter/rgb_led/ps7_cortexa9_0/freertos10_xilinx_domain/bsp/ps7_cortexa9_0/libsrc/freertos10_xilinx_v1_14/src/Source/portable/GCC/MicroBlazeV9/port.c:142-256 | Every saved slot (three pad words, FSR with the FPU, MSR, nesting count, R2-R31) lies inside the frame, at its fixed offset below the top |
| StackFrame.SlotAt | work/Counter/rgb_led/ps7_cortexa9_0/freertos10_xilinx_domain/bsp/ps7_cortexa9_0/libsrc/freertos10_xilinx_v1_14/src/Source/portable/GCC/MicroBlazeV9/port.c:142-256 | Every offset of the frame belongs to a slot that lives there |
| StackFrame.SlotContent | work/Counter/rgb_led/ps7_cortexa9_0/freertos10_xilinx_domain/bsp/ps7_cortexa9_0/libsrc/freertos10_xilinx_v1_14/src/Source/portable/GCC/MicroBlazeV9/port.c:186-256 | A slot is left as it was exactly when it is a scratch register and the build does not pre-load; pre-loaded scratch registers hold their own number, R8 NULL |
| StackFrame.FrameEntry | work/Counter/rgb_led/ps7_cortexa9_0/freertos10_xilinx_domain/bsp/ps7_cortexa9_0/libsrc/freertos10_xilinx_v1_14/src/Source/portable/GCC/MicroBlazeV9/port.c:142-256 | The three pad words and the nesting count are 0, and every word the writer steps over lies among R6-R31 |
| StackFrame.SlotOffsetInjective | work/Counter/rgb_led/ps7_cortexa9_0/freertos10_xilinx_domain/bsp/ps7_cortexa9_0/libsrc/freertos10_xilinx_v1_14/src/Source/portable/GCC/MicroBlazeV9/port.c:142-256 | No two slots share an offset |
| StackFrame.InitialSlots | work/Counter/rgb_led/ps7_cortexa9_0/freertos10_xilinx_domain/bsp/ps7_cortexa9_0/libsrc/freertos10_xilinx_v1_14/src/Source/portable/GCC/MicroBlazeV9/port.c:142-225 | The named slots and what they hold: zeros at the top three words, FSR 0, the initial MSR, nesting 0, R2 SDA2 base, R3 3, R4 4, R5 parameters, R13 SDA base, R14 task code, R15 task return address, R19 0 |
| StackFrame.PreloadOnlyFillsScratchRegisters | work/Counter/rgb_led/ps7_cortexa9_0/freertos10_xilinx_domain/bsp/ps7_cortexa9_0/libsrc/freertos10_xilinx_v1_14/src/Source/portable/GCC/MicroBlazeV9/port.c:186-256 | Pre-loading for debugging does not change the frame's size; it only fills the scratch registers, each with its own number (R8 with NULL), which the other build leaves as they were |
| StackFrame.SkippedSlots | work/Counter/rgb_led/ps7_cortexa9_0/freertos10_xilinx_domain/bsp/ps7_cortexa9_0/libsrc/freertos10_xilinx_v1_14/src/Source/portable/GCC/MicroBlazeV9/port.c:202-204 | A frame word keeps its old content exactly when it is a scratch register of a build without pre-loading |
| StackFrame.InitialiseStack | work/Counter/rgb_led/ps7_cortexa9_0/freertos10_xilinx_domain/bsp/ps7_cortexa9_0/libsrc/freertos10_xilinx_v1_14/src/Source/portable/GCC/MicroBlazeV9/port.c:132-261 | Returns top minus the frame size; every frame word below top holds its slot's content, or its old value where the writer steps over it; every word outside (result, top] is unchanged |
| StackFrame.PlaceKnownValues | work/Counter/rgb_led/ps7_cortexa9_0/freertos10_xilinx_domain/bsp/ps7_cortexa9_0/libsrc/freertos10_xilinx_v1_14/src/Source/portable/GCC/MicroBlazeV9/port.c:142-153 | Lays the three zero words and, with the FPU, the FSR |
| StackFrame.PlaceStatusWords | work/Counter/rgb_led/ps7_cortexa9_0/freertos10_xilinx_domain/bsp/ps7_cortexa9_0/libsrc/freertos10_xilinx_v1_14/src/Source/portable/GCC/MicroBlazeV9/port.c:155-171 | Lays the initial MSR and the zero nesting count |
| StackFrame.PlaceR2ToR5 | work/Counter/rgb_led/ps7_cortexa9_0/freertos10_xilinx_domain/bsp/ps7_cortexa9_0/libsrc/freertos10_xilinx_v1_14/src/Source/portable/GCC/MicroBlazeV9/port.c:176-184 | Lays R2 to R5 |
| StackFrame.PlaceR6ToR12 | work/Counter/rgb_led/ps7_cortexa9_0/freertos10_xilinx_domain/bsp/ps7_cortexa9_0/libsrc/freertos10_xilinx_v1_14/src/Source/portable/GCC/MicroBlazeV9/port.c:186-204 | Lays R6 to R12 when pre-loading, steps over them otherwise |
| StackFrame.PreloadR6ToR9 | work/Counter/rgb_led/ps7_cortexa9_0/freertos10_xilinx_domain/bsp/ps7_cortexa9_0/libsrc/freertos10_xilinx_v1_14/src/Source/portable/GCC/MicroBlazeV9/port.c:187-194 | Lays R6, R7, R8 (NULL) and R9 |
| StackFrame.PreloadR10ToR12 | work/Counter/rgb_led/ps7_cortexa9_0/freertos10_xilinx_domain/bsp/ps7_cortexa9_0/libsrc/freertos10_xilinx_v1_14/src/Source/portable/GCC/MicroBlazeV9/port.c:195-201 | Lays R10 to R12 and steps down to R13 |
| StackFrame.PlaceR13ToR15 | work/Counter/rgb_led/ps7_cortexa9_0/freertos10_xilinx_domain/bsp/ps7_cortexa9_0/libsrc/freertos10_xilinx_v1_14/src/Source/portable/GCC/MicroBlazeV9/port.c:206-210 | Lays R13 to R15 |
| StackFrame.PlaceR16ToR19 | work/Counter/rgb_led/ps7_cortexa9_0/freertos10_xilinx_domain/bsp/ps7_cortexa9_0/libsrc/freertos10_xilinx_v1_14/src/Source/portable/GCC/MicroBlazeV9/port.c:212-225 | Lays R16 to R18 when pre-loading, steps over them otherwise, and lays R19 |
| StackFrame.PlaceR20ToR31 | work/Counter/rgb_led/ps7_cortexa9_0/freertos10_xilinx_domain/bsp/ps7_cortexa9_0/libsrc/freertos10_xilinx_v1_14/src/Source/portable/GCC/MicroBlazeV9/port.c:227-256 | Lays R20 to R31 when pre-loading, steps over them otherwise, ending at the returned stack pointer |
| StackFrame.PreloadR20ToR23 | work/Counter/rgb_led/ps7_cortexa9_0/freertos10_xilinx_domain/bsp/ps7_cortexa9_0/libsrc/freertos10_xilinx_v1_14/src/Source/portable/GCC/MicroBlazeV9/port.c:228-236 | Lays R20 to R23 |
| StackFrame.PreloadR24ToR27 | work/Counter/rgb_led/ps7_cortexa9_0/freertos10_xilinx_domain/bsp/ps7_cortexa9_0/libsrc/freertos10_xilinx_v1_14/src/Source/portable/GCC/MicroBlazeV9/port.c:237-244 | Lays R24 to R27 |
| StackFrame.PreloadR28ToR31 | work/Counter/rgb_led/ps7_cortexa9_0/freertos10_xilinx_domain/bsp/ps7_cortexa9_0/libsrc/freertos10_xilinx_v1_14/src/Source/portable/GCC/MicroBlazeV9/port.c:245-253 | Lays R28 to R31 and steps down to the returned stack pointer |
| TickInterrupt.NextCount | work/Counter/rgb_led/ps7_cortexa9_0/freertos10_xilinx_domain/bsp/ps7_cortexa9_0/libsrc/freertos10_xilinx_v1_14/src/Source/portable/GCC/MicroBlazeV9/port.c:484 | The statistics counter advances by one modulo 2^32 |
| TickInterrupt.KernelTickPeriod | work/Counter/rgb_led/ps7_cortexa9_0/freertos10_xilinx_domain/bsp/ps7_cortexa9_0/libsrc/freertos10_xilinx_v1_14/src/Source/portable/GCC/MicroBlazeV9/port.c:485 | With statistics, the counts that run the kernel tick are ten apart: none of the nine after one does, the tenth does |
| TickInterrupt.TickStep | work/Counter/rgb_led/ps7_cortexa9_0/freertos10_xilinx_domain/bsp/ps7_cortexa9_0/libsrc/freertos10_xilinx_v1_14/src/Source/portable/GCC/MicroBlazeV9/port.c:462-506 | One interrupt keeps the counter and the switch flag 32-bit values; its effect is stated by TickStepEffect |
| TickInterrupt.TickStepEffect | work/Counter/rgb_led/ps7_cortexa9_0/freertos10_xilinx_domain/bsp/ps7_cortexa9_0/libsrc/freertos10_xilinx_v1_14/src/Source/portable/GCC/MicroBlazeV9/port.c:462-506 | One interrupt: the counter advances (with statistics); xTaskIncrementTick runs exactly when the new count is a multiple of ten (always without statistics); the timer is cleared once more than that with statistics and exactly that often without; the switch flag becomes 1 when the kernel tick runs and xTaskIncrementTick asks for a switch, and is left as it was otherwise |
| TickInterrupt.RunCounter | work/Counter/rgb_led/ps7_cortexa9_0/freertos10_xilinx_domain/bsp/ps7_cortexa9_0/libsrc/freertos10_xilinx_v1_14/src/Source/portable/GCC/MicroBlazeV9/port.c:483-485 | After n interrupts the counter has advanced by n modulo 2^32 with statistics, and is untouched without |
| TickInterrupt.RunTickCount | work/Counter/rgb_led/ps7_cortexa9_0/freertos10_xilinx_domain/bsp/ps7_cortexa9_0/libsrc/freertos10_xilinx_v1_14/src/Source/portable/GCC/MicroBlazeV9/port.c:483-505 | With statistics and no wrap, n interrupts from count t run the kernel tick (t+n)/10 - t/10 times and clear the timer n times more than that |
| TickInterrupt.TicksAfterReset | work/Counter/rgb_led/ps7_cortexa9_0/freertos10_xilinx_domain/bsp/ps7_cortexa9_0/libsrc/freertos10_xilinx_v1_14/src/Source/portable/GCC/MicroBlazeV9/port.c:483-505 | After the counter is reset, whatever the switch flag holds, n interrupts (n < 2^32) leave the counter at n and give n/10 kernel ticks |
| TickInterrupt.RunWithoutStats | work/Counter/rgb_led/ps7_cortexa9_0/freertos10_xilinx_domain/bsp/ps7_cortexa9_0/libsrc/freertos10_xilinx_v1_14/src/Source/portable/GCC/MicroBlazeV9/port.c:487-502 | Without statistics, n interrupts run the kernel tick n times and clear the timer n times |
| TickInterrupt.RunSwitchFlag | work/Counter/rgb_led/ps7_cortexa9_0/freertos10_xilinx_domain/bsp/ps7_cortexa9_0/libsrc/freertos10_xilinx_v1_14/src/Source/portable/GCC/MicroBlazeV9/port.c:498-501 | After a run, the switch flag is 1 if some interrupt ran the kernel tick and was asked for a switch, and is as before otherwise: the handler never clears it |
| TickInterrupt.WrapShortensTickPeriod | work/Counter/rgb_led/ps7_cortexa9_0/freertos10_xilinx_domain/bsp/ps7_cortexa9_0/libsrc/freertos10_xilinx_v1_14/src/Source/portable/GCC/MicroBlazeV9/port.c:484-485 | From count 4294967290 (a kernel tick), five interrupts run no kernel tick and the sixth wraps the counter to 0 and runs one |
| TickInterrupt.LastInterruptBeforeWrap | work/Counter/rgb_led/ps7_cortexa9_0/freertos10_xilinx_domain/bsp/ps7_cortexa9_0/libsrc/freertos10_xilinx_v1_14/src/Source/portable/GCC/MicroBlazeV9/port.c:484-485 | The interrupt that wraps the counter to 0 runs the kernel tick |
| TickInterrupt.RunSplit | work/Counter/rgb_led/ps7_cortexa9_0/freertos10_xilinx_domain/bsp/ps7_cortexa9_0/libsrc/freertos10_xilinx_v1_14/src/Source/portable/GCC/MicroBlazeV9/port.c:462-506 | Two consecutive runs of interrupts compose into one |
| InterruptController.InitialiseStatus | work/Counter/rgb_led/ps7_cortexa9_0/freertos10_xilinx_domain/bsp/ps7_cortexa9_0/libsrc/freertos10_xilinx_v1_14/src/Source/portable/GCC/MicroBlazeV9/port.c:510-547 | The controller counts as initialised when XIntc_Initialize and XIntc_Start both succeed, or when XIntc_Initialize returns the code equal to pdPASS; a start failure gives pdFAIL, an initialise failure its own code |
| InterruptController.InitialiseEvents | work/Counter/rgb_led/ps7_cortexa9_0/freertos10_xilinx_domain/bsp/ps7_cortexa9_0/libsrc/freertos10_xilinx_v1_14/src/Source/portable/GCC/MicroBlazeV9/port.c:510-547 | XIntc_Initialize is called first; the controller is started, and exception handlers installed when the build asks for it, only after a successful XIntc_Initialize; the assertion fails exactly when the status is not pdPASS |
| InterruptController.SetUpEvents | work/Counter/rgb_led/ps7_cortexa9_0/freertos10_xilinx_domain/bsp/ps7_cortexa9_0/libsrc/freertos10_xilinx_v1_14/src/Source/portable/GCC/MicroBlazeV9/port.c:518-533 | The set-up of an initialised controller starts it and installs exception handlers exactly when exceptions are enabled and configINSTALL_EXCEPTION_HANDLERS is set |
| InterruptController.AssertUnless | work/Counter/rgb_led/ps7_cortexa9_0/freertos10_xilinx_domain/bsp/ps7_cortexa9_0/libsrc/freertos10_xilinx_v1_14/src/Source/portable/GCC/MicroBlazeV9/port.c:544 | configASSERT records exactly one failure when its condition is false and nothing when it holds |
| InterruptController.Ensure | work/Counter/rgb_led/ps7_cortexa9_0/freertos10_xilinx_domain/bsp/ps7_cortexa9_0/libsrc/freertos10_xilinx_v1_14/src/Source/portable/GCC/MicroBlazeV9/port.c:433-452 | While unlatched, the controller is initialised and the latch is set only on pdPASS; once latched, the result is pdPASS with no driver call |
| InterruptController.EnsureIdempotent | work/Counter/rgb_led/ps7_cortexa9_0/freertos10_xilinx_domain/bsp/ps7_cortexa9_0/libsrc/freertos10_xilinx_v1_14/src/Source/portable/GCC/MicroBlazeV9/port.c:433-452 | After a call that succeeded, every later call succeeds without touching the driver |
| InterruptController.FirstPass | work/Counter/rgb_led/ps7_cortexa9_0/freertos10_xilinx_domain/bsp/ps7_cortexa9_0/libsrc/freertos10_xilinx_v1_14/src/Source/portable/GCC/MicroBlazeV9/port.c:433-452 | The first attempt whose initialisation succeeds |
| InterruptController.EnsureRunInitialisesOnce | work/Counter/rgb_led/ps7_cortexa9_0/freertos10_xilinx_domain/bsp/ps7_cortexa9_0/libsrc/freertos10_xilinx_v1_14/src/Source/portable/GCC/MicroBlazeV9/port.c:433-452 | Over any sequence of calls from the unlatched state, the driver is initialised once per call up to the first success and never after; the latch ends set exactly when some call succeeded |
| InterruptController.InitialiseEventsInitialiseOnce | work/Counter/rgb_led/ps7_cortexa9_0/freertos10_xilinx_domain/bsp/ps7_cortexa9_0/libsrc/freertos10_xilinx_v1_14/src/Source/portable/GCC/MicroBlazeV9/port.c:510-547 | Each initialisation attempt calls XIntc_Initialize exactly once |
| InterruptController.EnsureRunLatched | work/Counter/rgb_led/ps7_cortexa9_0/freertos10_xilinx_domain/bsp/ps7_cortexa9_0/libsrc/freertos10_xilinx_v1_14/src/Source/portable/GCC/MicroBlazeV9/port.c:440-449 | Once latched, any sequence of calls succeeds with no driver call |
| InterruptController.InstallStatus | work/Counter/rgb_led/ps7_cortexa9_0/freertos10_xilinx_domain/bsp/ps7_cortexa9_0/libsrc/freertos10_xilinx_v1_14/src/Source/portable/GCC/MicroBlazeV9/port.c:387-430 | The install functions report pdPASS exactly when the connect succeeded or returned the code equal to pdPASS, or when the ensure step failed with pdFAIL; any other status is returned unchanged |
| InterruptController.StartFailureReportedAsPass | work/Counter/rgb_led/ps7_cortexa9_0/freertos10_xilinx_domain/bsp/ps7_cortexa9_0/libsrc/freertos10_xilinx_v1_14/src/Source/portable/GCC/MicroBlazeV9/port.c:394-406 | A controller whose XIntc_Start fails makes the install functions report pdPASS |
| MicroBlazePort.StartUpNestingFailsEndScheduler | work/Counter/rgb_led/ps7_cortexa9_0/freertos10_xilinx_domain/bsp/ps7_cortexa9_0/libsrc/freertos10_xilinx_v1_14/src/Source/portable/GCC/MicroBlazeV9/port.c:296-301 | The start-up nesting count is non-zero, and ending the scheduler from it records a failed assertion |
| MicroBlazePort.Port.constructor | work/Counter/rgb_led/ps7_cortexa9_0/freertos10_xilinx_domain/bsp/ps7_cortexa9_0/libsrc/freertos10_xilinx_v1_14/src/Source/portable/GCC/MicroBlazeV9/port.c:52-112 | The globals start as the C start-up code leaves them: nesting 0xff, switch flag 0, counter 0, latch pdFALSE |
| MicroBlazePort.Port.ApplicationClearTimerInterrupt | work/Counter/rgb_led/ps7_cortexa9_0/freertos10_xilinx_domain/bsp/ps7_cortexa9_0/libsrc/freertos10_xilinx_v1_14/src/Source/portable/GCC/MicroBlazeV9/port.c:495 | Logs one timer clear |
| MicroBlazePort.Port.TaskIncrementTick | work/Counter/rgb_led/ps7_cortexa9_0/freertos10_xilinx_domain/bsp/ps7_cortexa9_0/libsrc/freertos10_xilinx_v1_14/src/Source/portable/GCC/MicroBlazeV9/port.c:498 | Logs one kernel tick and returns the kernel's answer |
| MicroBlazePort.Port.ConfigAssert | work/Counter/rgb_led/ps7_cortexa9_0/freertos10_xilinx_domain/bsp/ps7_cortexa9_0/libsrc/freertos10_xilinx_v1_14/src/Source/portable/GCC/MicroBlazeV9/port.c:300 | Logs a failed assertion exactly when the condition is false |
| MicroBlazePort.Port.StartScheduler | work/Counter/rgb_led/ps7_cortexa9_0/freertos10_xilinx_domain/bsp/ps7_cortexa9_0/libsrc/freertos10_xilinx_v1_14/src/Source/portable/GCC/MicroBlazeV9/port.c:264-293 | Sets up the tick, puts the interrupt stack two words below _stack, starts the first task, and returns pdFALSE |
| MicroBlazePort.Port.EndScheduler | work/Counter/rgb_led/ps7_cortexa9_0/freertos10_xilinx_domain/bsp/ps7_cortexa9_0/libsrc/freertos10_xilinx_v1_14/src/Source/portable/GCC/MicroBlazeV9/port.c:296-301 | Records a failed assertion unless the nesting count is 1000 |
| MicroBlazePort.Port.TaskExitError | work/Counter/rgb_led/ps7_cortexa9_0/freertos10_xilinx_domain/bsp/ps7_cortexa9_0/libsrc/freertos10_xilinx_v1_14/src/Source/portable/GCC/MicroBlazeV9/port.c:330-344 | Asks the kernel for the task's name, warns with it, asks for the number of tasks, warns again when there are two, and deletes the calling task, in that order |
| MicroBlazePort.Port.TickIsr | work/Counter/rgb_led/ps7_cortexa9_0/freertos10_xilinx_domain/bsp/ps7_cortexa9_0/libsrc/freertos10_xilinx_v1_14/src/Source/portable/GCC/MicroBlazeV9/port.c:462-506 | Updates the counter and switch flag and logs the calls exactly as TickStep says |
| MicroBlazePort.Port.ConfigureTimerForRunTimeStats | work/Counter/rgb_led/ps7_cortexa9_0/freertos10_xilinx_domain/bsp/ps7_cortexa9_0/libsrc/freertos10_xilinx_v1_14/src/Source/portable/GCC/MicroBlazeV9/port.c:556-559 | Resets the statistics counter to 0 and keeps the globals 32-bit |
| MicroBlazePort.Port.GetRunTimeCounterValue | work/Counter/rgb_led/ps7_cortexa9_0/freertos10_xilinx_domain/bsp/ps7_cortexa9_0/libsrc/freertos10_xilinx_v1_14/src/Source/portable/GCC/MicroBlazeV9/port.c:565-568 | Returns the statistics counter, a 32-bit value |
| MicroBlazePort.Port.InitialiseController | work/Counter/rgb_led/ps7_cortexa9_0/freertos10_xilinx_domain/bsp/ps7_cortexa9_0/libsrc/freertos10_xilinx_v1_14/src/Source/portable/GCC/MicroBlazeV9/port.c:510-547 | Returns InitialiseStatus and logs InitialiseEvents |
| MicroBlazePort.Port.EnsureControllerInitialised | work/Counter/rgb_led/ps7_cortexa9_0/freertos10_xilinx_domain/bsp/ps7_cortexa9_0/libsrc/freertos10_xilinx_v1_14/src/Source/portable/GCC/MicroBlazeV9/port.c:433-452 | Updates the latch, returns the status and logs the calls exactly as Ensure says |
| MicroBlazePort.Port.EnableInterrupt | work/Counter/rgb_led/ps7_cortexa9_0/freertos10_xilinx_domain/bsp/ps7_cortexa9_0/libsrc/freertos10_xilinx_v1_14/src/Source/portable/GCC/MicroBlazeV9/port.c:348-367 | Enables the interrupt, inside a critical section, only when the ensure step passed; asserts only when its status is 0 |
| MicroBlazePort.Port.DisableInterrupt | work/Counter/rgb_led/ps7_cortexa9_0/freertos10_xilinx_domain/bsp/ps7_cortexa9_0/libsrc/freertos10_xilinx_v1_14/src/Source/portable/GCC/MicroBlazeV9/port.c:370-384 | Disables the interrupt only when the ensure step passed; asserts only when its status is 0 |
| MicroBlazePort.Port.InstallInterruptHandler | work/Counter/rgb_led/ps7_cortexa9_0/freertos10_xilinx_domain/bsp/ps7_cortexa9_0/libsrc/freertos10_xilinx_v1_14/src/Source/portable/GCC/MicroBlazeV9/port.c:387-407 | Connects the handler only when the ensure step passed, returns InstallStatus, and asserts unless that is pdPASS |
| MicroBlazePort.Port.InstallFastInterruptHandler | work/Counter/rgb_led/ps7_cortexa9_0/freertos10_xilinx_domain/bsp/ps7_cortexa9_0/libsrc/freertos10_xilinx_v1_14/src/Source/portable/GCC/MicroBlazeV9/port.c:410-430 | Connects the fast handler only when the ensure step passed, returns InstallStatus, and asserts unless that is pdPASS |

## Left out

- vPortYield (port.c:307-327) is an inline assembly jump to VPortYieldASM. The context switch code is not part of this model, so nothing is claimed about restoring a saved context.
- portENTER_CRITICAL and portEXIT_CRITICAL are defined outside this file. They are logged as events and do not change the nesting count.
- The XIntc_, Xil_ExceptionInit, vPortExceptionsInstallHandlers, xTaskIncrementTick, vApplication* and vPortStartFirstTask routines are not part of this model. They are logged calls whose results are inputs.
- vPortStartFirstTask does not return on the target. The model returns from it, and StartScheduler then returns pdFALSE as the code after it does.
- The printing in prvTaskExitError is logged as two warning events; the format strings are not modelled.
- configASSERT is modelled as a logged failure after which execution continues. A build whose configASSERT halts stops at the first AssertFailed event.
- The XPAR_XILTIMER_ENABLED variant is not modelled. It leaves out the controller code and gives vPortTickISR an extra unused argument.
- The 64-bit (__arch64__) build is not modelled; words are 32 bits.
- The stack array's element type is an unbounded integer. Every value the writer stores is a 32-bit word: an argument of the Word type, a small constant, or the 32-bit MSR.
- Pointers are word indices into the stack array. StackFrame.InitialiseStack requires the caller's array to hold the frame and the returned pointer (top >= frame size), which the C code assumes of its caller. The interrupt stack pointer is an unbounded word address.
- The statistics counter exists in the model in every build. Only the run time statistics build updates it, resets it, or reads it.
- Volatile accesses, interrupt versus task concurrency and nested interrupts are not modelled. Each operation runs to completion.
