/**
 * The port's use of the Xilinx interrupt controller driver, as functions of
 * what the driver answers (port.c:348-452 and 510-547).
 *
 * The driver's answers (the statuses of XIntc_Initialize, XIntc_Start,
 * XIntc_Connect and XIntc_ConnectFastHandler) are inputs. Two status code
 * families meet here: the driver's XST_ codes, where 0 is success, and the
 * kernel's pdPASS / pdFAIL, where 1 is success and 0 is failure.
 */
module InterruptController {
  import opened PortConfig

  /** The statuses XIntc_Initialize and XIntc_Start return, when called. */
  datatype DriverStatus = DriverStatus(initialize: int, start: int)

  /**
   * prvInitialiseInterruptController's result. The controller counts as
   * initialised when both driver calls succeed, and also when XIntc_Initialize
   * fails with the code that happens to equal pdPASS; a failing XIntc_Start is
   * reported as pdFAIL and a failing XIntc_Initialize by its own code.
   */
  function InitialiseStatus(d: DriverStatus): (status: int)
    ensures status == PD_PASS <==>
      (d.initialize == XST_SUCCESS && d.start == XST_SUCCESS) || d.initialize == PD_PASS
    ensures d.initialize == XST_SUCCESS && d.start != XST_SUCCESS ==> status == PD_FAIL
    ensures d.initialize != XST_SUCCESS ==> status == d.initialize
  {
    if d.initialize == XST_SUCCESS then
      if d.start == XST_SUCCESS then PD_PASS else PD_FAIL
    else
      d.initialize
  }

  /** The calls prvInitialiseInterruptController makes, in order, and its configASSERT. */
  function InitialiseEvents(cfg: Config, d: DriverStatus): (events: seq<Event>)
    ensures |events| > 0 && events[0] == IntcInitialize
    ensures IntcStart in events <==> d.initialize == XST_SUCCESS
    ensures InstallExceptionHandlers in events <==>
      d.initialize == XST_SUCCESS && cfg.exceptions && cfg.installExceptionHandlers
    ensures AssertFailed(InitialiseControllerSite) in events <==> InitialiseStatus(d) != PD_PASS
  {
    var setUp := if d.initialize == XST_SUCCESS then SetUpEvents(cfg) else [];
    [IntcInitialize] + setUp + AssertUnless(InitialiseStatus(d) == PD_PASS, InitialiseControllerSite)
  }

  /** The calls that set up and start an initialised controller. */
  function SetUpEvents(cfg: Config): (events: seq<Event>)
    ensures IntcInitialize !in events && IntcStart in events
    ensures InstallExceptionHandlers in events <==> cfg.exceptions && cfg.installExceptionHandlers
  {
    [ExceptionInit, SetServiceAllIsrs]
    + (if cfg.exceptions && cfg.installExceptionHandlers then [InstallExceptionHandlers] else [])
    + [IntcStart]
  }

  /** `configASSERT(c)` at `site`: nothing when c holds, a failed assertion otherwise. */
  function AssertUnless(c: bool, site: AssertSite): (events: seq<Event>)
    ensures events == [] <==> c
    ensures |events| == if c then 0 else 1
    ensures forall e :: e in events ==> e == AssertFailed(site)
  {
    if c then [] else [AssertFailed(site)]
  }

  /** The result of prvEnsureInterruptControllerIsInitialised: the new latch, the status and the calls. */
  datatype EnsureResult = EnsureResult(latch: int, status: int, events: seq<Event>)

  /**
   * prvEnsureInterruptControllerIsInitialised with its static latch at
   * `latch`; `d` is what the driver answers if it is called.
   */
  function Ensure(cfg: Config, latch: int, d: DriverStatus): (r: EnsureResult)
    ensures latch == PD_TRUE ==> r == EnsureResult(PD_TRUE, PD_PASS, [])
    ensures latch != PD_TRUE ==> r.status == InitialiseStatus(d) && r.events == InitialiseEvents(cfg, d)
    ensures r.latch == PD_TRUE <==> latch == PD_TRUE || r.status == PD_PASS
    ensures r.latch != PD_TRUE ==> r.latch == latch
  {
    if latch != PD_TRUE then
      var status := InitialiseStatus(d);
      EnsureResult(if status == PD_PASS then PD_TRUE else latch, status, InitialiseEvents(cfg, d))
    else
      EnsureResult(latch, PD_PASS, [])
  }

  /** Once the latch is set every later call succeeds at once, without touching the driver. */
  lemma EnsureIdempotent(cfg: Config, latch: int, d1: DriverStatus, d2: DriverStatus)
    ensures var first := Ensure(cfg, latch, d1);
      first.status == PD_PASS ==> Ensure(cfg, first.latch, d2) == EnsureResult(PD_TRUE, PD_PASS, [])
  {
  }

  /** A sequence of calls to prvEnsureInterruptControllerIsInitialised, `ds[i]` being the driver's answers at the i-th. */
  function EnsureRun(cfg: Config, latch: int, ds: seq<DriverStatus>): (r: EnsureResult)
    decreases |ds|
  {
    if ds == [] then EnsureResult(latch, PD_PASS, [])
    else
      var first := Ensure(cfg, latch, ds[0]);
      var rest := EnsureRun(cfg, first.latch, ds[1..]);
      EnsureResult(rest.latch, rest.status, first.events + rest.events)
  }

  /** The index of the first attempt whose initialisation succeeds, or |ds| if none does. */
  function FirstPass(ds: seq<DriverStatus>): (i: nat)
    ensures i <= |ds|
    ensures forall j :: 0 <= j < i ==> InitialiseStatus(ds[j]) != PD_PASS
    ensures i < |ds| ==> InitialiseStatus(ds[i]) == PD_PASS
    decreases |ds|
  {
    if ds == [] then 0
    else if InitialiseStatus(ds[0]) == PD_PASS then 0
    else 1 + FirstPass(ds[1..])
  }

  /**
   * The controller is initialised at most once: starting unlatched, the driver
   * is initialised once per call up to and including the first that succeeds,
   * and never after it; the latch ends set exactly when some call succeeded.
   */
  lemma {:induction false} EnsureRunInitialisesOnce(cfg: Config, latch: int, ds: seq<DriverStatus>)
    requires latch != PD_TRUE
    ensures var r := EnsureRun(cfg, latch, ds);
      && Count(r.events, IntcInitialize) == (if FirstPass(ds) < |ds| then FirstPass(ds) + 1 else |ds|)
      && (r.latch == PD_TRUE <==> FirstPass(ds) < |ds|)
    decreases |ds|
  {
    if ds != [] {
      var first := Ensure(cfg, latch, ds[0]);
      var rest := EnsureRun(cfg, first.latch, ds[1..]);
      CountConcat(first.events, rest.events, IntcInitialize);
      InitialiseEventsInitialiseOnce(cfg, ds[0]);
      if InitialiseStatus(ds[0]) == PD_PASS {
        EnsureRunLatched(cfg, ds[1..]);
      } else {
        EnsureRunInitialisesOnce(cfg, first.latch, ds[1..]);
      }
    }
  }

  /** Each attempt initialises the driver exactly once. */
  lemma InitialiseEventsInitialiseOnce(cfg: Config, d: DriverStatus)
    ensures Count(InitialiseEvents(cfg, d), IntcInitialize) == 1
  {
    var events := InitialiseEvents(cfg, d);
    assert events[0] == IntcInitialize;
    assert IntcInitialize !in events[1..];
    CountAbsent(events[1..], IntcInitialize);
  }

  /** Latched, a run of calls all succeed and make no driver call. */
  lemma {:induction false} EnsureRunLatched(cfg: Config, ds: seq<DriverStatus>)
    ensures EnsureRun(cfg, PD_TRUE, ds) == EnsureResult(PD_TRUE, PD_PASS, [])
    decreases |ds|
  {
    if ds != [] {
      EnsureRunLatched(cfg, ds[1..]);
    }
  }

  /**
   * xPortInstallInterruptHandler's and xPortInstallFastInterruptHandler's
   * result, from prvEnsureInterruptControllerIsInitialised's status and what
   * the connect call returns if it is made. They report pdPASS when the
   * handler was connected, but also when the connect call failed with the code
   * that equals pdPASS, and when the controller could not be started (pdFAIL
   * equals XST_SUCCESS) and no connect call was made.
   */
  function InstallStatus(ensured: int, connect: int): (status: int)
    ensures status == PD_PASS <==>
      if ensured == PD_PASS then connect == XST_SUCCESS || connect == PD_PASS
      else ensured == PD_FAIL
    ensures ensured == PD_PASS && connect != XST_SUCCESS ==> status == connect
    ensures ensured != PD_PASS && ensured != PD_FAIL ==> status == ensured
  {
    var status := if ensured == PD_PASS then connect else ensured;
    if status == XST_SUCCESS then PD_PASS else status
  }

  /** A controller that fails to start yields a handler installation that reports success. */
  lemma StartFailureReportedAsPass(cfg: Config, d: DriverStatus, connect: int)
    requires d.initialize == XST_SUCCESS && d.start != XST_SUCCESS
    ensures Ensure(cfg, PD_FALSE, d).status == PD_FAIL
    ensures InstallStatus(Ensure(cfg, PD_FALSE, d).status, connect) == PD_PASS
  {
  }
}
