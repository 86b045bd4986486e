/** The process driver of src/main/main.go: the per-signal work of the
    listener goroutine, argument processing, initApplication and main.
    Flag parsing, the logging library and the configuration loader are
    inputs: `cfgArg` is the value the `-c`/`-cfg` flags yield, `loggerOk`
    whether LOG.Initialize succeeds, and `loader` what LoadConfiguration
    returns for a path. */
module Driver {
  import opened Cfg
  import opened Trace
  import opened Signals
  import opened App

  /** What the listener logs for one signal: a debug line first, then a
      warning when the switch falls to its default branch. */
  function SignalRecords(signum: int): (t: seq<Event>)
    ensures 1 <= |t| && t[0] == SignalReceived(signum)
    ensures UnknownSignal(signum) in t <==> signum !in ListedSignals
    ensures forall e | e in t :: e == SignalReceived(signum) || e == UnknownSignal(signum)
  {
    [SignalReceived(signum)] + if Classify(signum) == Warn then [UnknownSignal(signum)] else []
  }

  /** The listener's log for a batch of signals handled in order. */
  function SignalLog(batch: seq<int>): seq<Event>
  {
    if batch == [] then []
    else SignalLog(batch[..|batch| - 1]) + SignalRecords(batch[|batch| - 1])
  }

  /** Every received signal is logged once, and exactly the unknown ones
      draw a warning; the listener logs nothing else. */
  lemma {:induction false} SignalLogCounts(batch: seq<int>, e: Event)
    ensures multiset(SignalLog(batch))[e] ==
      match e
      case SignalReceived(s) => multiset(batch)[s]
      case UnknownSignal(s) => if s in ListedSignals then 0 else multiset(batch)[s]
      case _ => 0
  {
    if batch != [] {
      var front, last := batch[..|batch| - 1], batch[|batch| - 1];
      assert batch == front + [last];
      SignalLogCounts(front, e);
      assert multiset(SignalLog(batch)) == multiset(SignalLog(front)) + multiset(SignalRecords(last));
    }
  }

  /** The listener logs only signal lines and warnings. */
  lemma {:induction false} SignalLogEvents(batch: seq<int>)
    ensures forall e | e in SignalLog(batch) :: e.SignalReceived? || e.UnknownSignal?
  {
    if batch != [] {
      SignalLogEvents(batch[..|batch| - 1]);
    }
  }

  /** Whether some signal of the batch is one of the stop family. */
  predicate StopRequested(batch: seq<int>)
  {
    exists i | 0 <= i < |batch| :: Classify(batch[i]) == Stop
  }

  /** The stop schedule the main loop sees when arrivals[k] are the signals
      handled before its k-th loop-head check. */
  function StopSchedule(arrivals: seq<seq<int>>): seq<bool>
  {
    seq(|arrivals|, k requires 0 <= k < |arrivals| => StopRequested(arrivals[k]))
  }

  /** The body of the listener loop for one received signal. */
  method HandleSignal(app: AppData, signum: int) returns (records: seq<Event>)
    modifies app`runMainLoop
    ensures records == SignalRecords(signum)
    ensures app.State() == if signum in TerminateSignals then AfterStop(old(app.State())) else old(app.State())
  {
    records := [SignalReceived(signum)];
    match Classify(signum)
    case Stop =>
      app.StopApplication();
    case Ignore =>
    case Warn =>
      records := records + [UnknownSignal(signum)];
  }

  /** The listener handling a batch of signals one after another: the run
      flag ends false exactly when one of them is of the stop family. */
  method HandleBatch(app: AppData, batch: seq<int>) returns (records: seq<Event>)
    modifies app`runMainLoop
    ensures records == SignalLog(batch)
    ensures app.State() == if StopRequested(batch) then AfterStop(old(app.State())) else old(app.State())
  {
    records := [];
    var i := 0;
    while i < |batch|
      invariant 0 <= i <= |batch|
      invariant records == SignalLog(batch[..i])
      invariant app.State() ==
        if StopRequested(batch[..i]) then AfterStop(old(app.State())) else old(app.State())
    {
      var more := HandleSignal(app, batch[i]);
      assert batch[..i + 1][..i] == batch[..i];
      records := records + more;
      assert StopRequested(batch[..i + 1]) <==> StopRequested(batch[..i]) || Classify(batch[i]) == Stop by {
        if StopRequested(batch[..i + 1]) && !StopRequested(batch[..i]) {
          var j :| 0 <= j < i + 1 && Classify(batch[..i + 1][j]) == Stop;
          assert j == i;
        }
        if Classify(batch[i]) == Stop {
          assert Classify(batch[..i + 1][i]) == Stop;
        }
      }
      i := i + 1;
    }
    assert batch[..|batch|] == batch;
  }

  /** The listener handling the batch that arrives before the main loop's
      k-th loop-head check has exactly the effect on the run flag that the
      loop's stop schedule records for that check. */
  method BatchWindow(app: AppData, arrivals: seq<seq<int>>, k: nat) returns (records: seq<Event>)
    requires k < |arrivals|
    modifies app`runMainLoop
    ensures records == SignalLog(arrivals[k])
    ensures app.State() == if StopSchedule(arrivals)[k] then AfterStop(old(app.State())) else old(app.State())
  {
    records := HandleBatch(app, arrivals[k]);
  }

  /** processArgumets: an empty path is refused and leaves the stored one
      alone; any other path is stored. */
  method ProcessArguments(app: AppData, cfgArg: string) returns (rc: int, records: seq<Event>)
    modifies app`cfgFile
    ensures cfgArg == "" ==> rc == RcExitFailure && records == [UsagePrinted] && app.State() == old(app.State())
    ensures cfgArg != "" ==> rc == RcExitSuccess && records == [] && app.State() == old(app.State()).(cfgFile := cfgArg)
  {
    if cfgArg == "" {
      records := [UsagePrinted];
      rc := RcExitFailure;
      return;
    } else {
      records := [];
      app.cfgFile := cfgArg;
    }
    rc := RcExitSuccess;
  }

  /** The outcome of initApplication: a panic, or a code with the
      configuration it loaded. */
  datatype InitOutcome = InitPanicked | InitDone(rc: int, config: Option<ConfigurationHolder>)

  /** Whether initApplication gets through every step. */
  predicate InitSucceeds(loggerOk: bool, cfgArg: string, loader: string -> Option<ConfigurationHolder>)
  {
    loggerOk && cfgArg != "" && loader(cfgArg).Some?
  }

  /** The log of initApplication. */
  function InitTrace(loggerOk: bool, cfgArg: string, loader: string -> Option<ConfigurationHolder>): seq<Event>
  {
    if !loggerOk then []
    else if cfgArg == "" then [LoggerReady, SignalHandlingArmed, UsagePrinted]
    else [LoggerReady, SignalHandlingArmed, ConfigLoadAttempt(cfgArg)] +
         if loader(cfgArg).Some? then [LevelSet(loader(cfgArg).value.logLevel)] else []
  }

  /** initApplication runs no phase of the application, and it sets the
      log level exactly when it succeeds. */
  lemma InitTraceEvents(loggerOk: bool, cfgArg: string, loader: string -> Option<ConfigurationHolder>)
    ensures var t := InitTrace(loggerOk, cfgArg, loader);
      && AppStarting !in t && Initialized !in t && Heartbeat !in t
      && ShutDown !in t && RuntimeStopped !in t && InitFailed !in t
    ensures InitSucceeds(loggerOk, cfgArg, loader) ==>
      LevelSet(loader(cfgArg).value.logLevel) in InitTrace(loggerOk, cfgArg, loader)
    ensures !InitSucceeds(loggerOk, cfgArg, loader) ==>
      forall e | e in InitTrace(loggerOk, cfgArg, loader) :: !e.LevelSet?
  {
  }

  method InitApplication(app: AppData, loggerOk: bool, cfgArg: string,
                         loader: string -> Option<ConfigurationHolder>)
    returns (outcome: InitOutcome, trace: seq<Event>)
    modifies app`cfgFile
    ensures trace == InitTrace(loggerOk, cfgArg, loader)
    ensures !loggerOk ==> outcome == InitPanicked && app.State() == old(app.State())
    ensures loggerOk && cfgArg == "" ==>
      outcome == InitDone(RcExitFailure, None) && app.State() == old(app.State())
    ensures loggerOk && cfgArg != "" ==>
      && app.State() == old(app.State()).(cfgFile := cfgArg)
      && outcome == InitDone(if loader(cfgArg).Some? then RcExitSuccess else RcExitFailure, loader(cfgArg))
  {
    trace := [];
    if !loggerOk {
      outcome := InitPanicked;
      return;
    }
    trace := [LoggerReady, SignalHandlingArmed];
    var rc, records := ProcessArguments(app, cfgArg);
    trace := trace + records;
    if rc != RcExitSuccess {
      outcome := InitDone(RcExitFailure, None);
      return;
    }
    trace := trace + [ConfigLoadAttempt(app.cfgFile)];
    var loaded := loader(app.cfgFile);
    if loaded.None? {
      outcome := InitDone(RcExitFailure, None);
      return;
    }
    trace := trace + [LevelSet(loaded.value.logLevel)];
    outcome := InitDone(RcExitSuccess, loaded);
  }

  /** How the process ends: os.Exit with a code, or the panic raised when
      logging cannot be initialised. */
  datatype ProcessEnd = Exited(code: int) | Panicked(message: string)

  /** main's log after initApplication failed: the failure is logged last,
      no phase of the application ran and no log level was set. */
  predicate AbortedBeforeStart(t: seq<Event>)
  {
    && |t| >= 1 && t[|t| - 1] == InitFailed
    && AppStarting !in t && Initialized !in t && Heartbeat !in t
    && ShutDown !in t && RuntimeStopped !in t
    && forall e | e in t :: !e.LevelSet?
  }

  /** main's log of a complete run: the configured level was set,
      initialize, shutdown and shutdownApplication ran once each and there
      were n heartbeats, and the log ends with shutdown, the report of the
      exit code and shutdownApplication. */
  predicate CompletedRun(t: seq<Event>, level: int, n: nat)
  {
    && LevelSet(level) in t
    && multiset(t)[Initialized] == 1
    && multiset(t)[Heartbeat] == n
    && multiset(t)[ShutDown] == 1
    && multiset(t)[RuntimeStopped] == 1
    && |t| >= 3
    && t[|t| - 3] == ShutDown
    && t[|t| - 2] == RuntimeEnded(RcExitSuccess)
    && t[|t| - 1] == RuntimeStopped
  }

  /** `main`: initApplication; on failure exit with its code and skip
      shutdownApplication; otherwise RunApplication, then
      shutdownApplication once, then exit with RunApplication's code.
      `early` are the signals handled after the listener is armed and
      before initialize runs (or, on failure, before main reports it);
      `arrivals[k]` those handled before the main loop's k-th loop-head
      check. */
  method RunProcess(loggerOk: bool, cfgArg: string, loader: string -> Option<ConfigurationHolder>,
                    early: seq<int>, arrivals: seq<seq<int>>)
    returns (end: ProcessEnd, trace: seq<Event>)
    requires InitSucceeds(loggerOk, cfgArg, loader) ==> true in StopSchedule(arrivals)
    ensures !loggerOk ==> end == Panicked("unable to initialize logging!") && trace == []
    ensures loggerOk && !InitSucceeds(loggerOk, cfgArg, loader) ==>
      && end == Exited(RcExitFailure)
      && trace == InitTrace(loggerOk, cfgArg, loader) + SignalLog(early) + [InitFailed]
      && AbortedBeforeStart(trace)
    ensures InitSucceeds(loggerOk, cfgArg, loader) ==>
      && end == Exited(RcExitSuccess)
      && trace == SuccessTrace(InitTrace(loggerOk, cfgArg, loader), early, FirstStop(StopSchedule(arrivals)),
                               SleepDuration(loader(cfgArg).value.mainLoopTimeout))
      && CompletedRun(trace, loader(cfgArg).value.logLevel, FirstStop(StopSchedule(arrivals)))
  {
    var app := new AppData();
    var init, initTrace := InitApplication(app, loggerOk, cfgArg, loader);
    trace := initTrace;
    if init.InitPanicked? {
      end := Panicked("unable to initialize logging!");
      return;
    }
    if init.rc != RcExitSuccess {
      var heard := HandleBatch(app, early);
      trace := trace + heard + [InitFailed];
      end := Exited(init.rc);
      FailedInitTrace(loggerOk, cfgArg, loader, early);
      return;
    }
    end, trace := RunInitialized(app, init.config.value, early, arrivals, initTrace);
    InitTraceEvents(loggerOk, cfgArg, loader);
    SuccessTraceFacts(initTrace, init.config.value.logLevel, early,
                      FirstStop(StopSchedule(arrivals)), SleepDuration(init.config.value.mainLoopTimeout));
  }

  /** After a failed initApplication, main logs the failure last and has run
      no phase of the application and set no log level, whatever signals the
      listener logged meanwhile. */
  lemma FailedInitTrace(loggerOk: bool, cfgArg: string, loader: string -> Option<ConfigurationHolder>,
                        early: seq<int>)
    requires !InitSucceeds(loggerOk, cfgArg, loader)
    ensures AbortedBeforeStart(InitTrace(loggerOk, cfgArg, loader) + SignalLog(early) + [InitFailed])
  {
    InitTraceEvents(loggerOk, cfgArg, loader);
    SignalLogEvents(early);
  }

  /** The part of `main` after a successful initApplication: the early
      signals, RunApplication, the report of its code and
      shutdownApplication. */
  method RunInitialized(app: AppData, config: ConfigurationHolder, early: seq<int>,
                        arrivals: seq<seq<int>>, initTrace: seq<Event>)
    returns (end: ProcessEnd, trace: seq<Event>)
    requires true in StopSchedule(arrivals)
    modifies app`runMainLoop
    ensures end == Exited(RcExitSuccess)
    ensures trace == SuccessTrace(initTrace, early, FirstStop(StopSchedule(arrivals)),
                                  SleepDuration(config.mainLoopTimeout))
  {
    var heard := HandleBatch(app, early);
    var rc, runTrace := app.RunApplication(config.mainLoopTimeout, StopSchedule(arrivals));
    trace := initTrace + heard + runTrace + [RuntimeEnded(rc)] + [RuntimeStopped];
    end := Exited(rc);
    ghost var beats := Heartbeats(FirstStop(StopSchedule(arrivals)), SleepDuration(config.mainLoopTimeout));
    assert runTrace + [RuntimeEnded(rc)] + [RuntimeStopped] ==
      [AppStarting, Initialized, LoopStarted] + beats + [ShutDown, RuntimeEnded(RcExitSuccess), RuntimeStopped];
  }

  /** The trace of a successful run: initialisation, the listener's log of
      the early signals, RunApplication's log, then main's closing lines. */
  function SuccessTrace(initTrace: seq<Event>, early: seq<int>, n: nat, ns: int): seq<Event>
  {
    initTrace + SignalLog(early) + [AppStarting, Initialized, LoopStarted] + Heartbeats(n, ns)
      + [ShutDown, RuntimeEnded(RcExitSuccess), RuntimeStopped]
  }

  /** A successful run keeps the log-level line of initialisation, runs
      initialize, shutdown and shutdownApplication once each and n
      heartbeats, and ends with shutdown, the report of the exit code and
      shutdownApplication. */
  lemma SuccessTraceFacts(initTrace: seq<Event>, level: int, early: seq<int>, n: nat, ns: int)
    requires LevelSet(level) in initTrace
    requires Initialized !in initTrace && Heartbeat !in initTrace
    requires ShutDown !in initTrace && RuntimeStopped !in initTrace
    ensures CompletedRun(SuccessTrace(initTrace, early, n, ns), level, n)
  {
    SuccessTraceEnd(initTrace, early, n, ns);
    RunTraceCount(initTrace, early, n, ns, Initialized);
    RunTraceCount(initTrace, early, n, ns, Heartbeat);
    RunTraceCount(initTrace, early, n, ns, ShutDown);
    RunTraceCount(initTrace, early, n, ns, RuntimeStopped);
  }

  /** A successful run's trace keeps the initialisation trace and ends with
      shutdown, the report of the exit code and shutdownApplication. */
  lemma SuccessTraceEnd(initTrace: seq<Event>, early: seq<int>, n: nat, ns: int)
    ensures var t := SuccessTrace(initTrace, early, n, ns);
      && |t| >= 3
      && t[|t| - 3] == ShutDown
      && t[|t| - 2] == RuntimeEnded(RcExitSuccess)
      && t[|t| - 1] == RuntimeStopped
      && forall e | e in initTrace :: e in t
  {
    var rest := SignalLog(early) + [AppStarting, Initialized, LoopStarted] + Heartbeats(n, ns);
    assert SuccessTrace(initTrace, early, n, ns) ==
      initTrace + (rest + [ShutDown, RuntimeEnded(RcExitSuccess), RuntimeStopped]);
  }

  /** The events of a successful run's trace, regardless of order. */
  lemma SuccessTraceBag(initTrace: seq<Event>, early: seq<int>, n: nat, ns: int)
    ensures multiset(SuccessTrace(initTrace, early, n, ns)) ==
      multiset(initTrace) + multiset(SignalLog(early)) + multiset([AppStarting, Initialized, LoopStarted])
        + multiset(Heartbeats(n, ns)) + multiset([ShutDown, RuntimeEnded(RcExitSuccess), RuntimeStopped])
  {
  }

  /** Counts of the lines of main and RunApplication around the loop. */
  lemma FixedLinesCount(e: Event)
    ensures multiset([AppStarting, Initialized, LoopStarted])[e] ==
      if e == AppStarting || e == Initialized || e == LoopStarted then 1 else 0
    ensures multiset([ShutDown, RuntimeEnded(RcExitSuccess), RuntimeStopped])[e] ==
      if e == ShutDown || e == RuntimeEnded(RcExitSuccess) || e == RuntimeStopped then 1 else 0
  {
  }

  /** The listener logs no line other than signal lines and warnings. */
  lemma SignalLogLacks(batch: seq<int>, e: Event)
    requires !e.SignalReceived? && !e.UnknownSignal?
    ensures multiset(SignalLog(batch))[e] == 0
  {
    SignalLogCounts(batch, e);
  }

  /** A successful run logs initialize, shutdown and shutdownApplication
      once each and a heartbeat per tick. */
  lemma RunTraceCount(initTrace: seq<Event>, early: seq<int>, n: nat, ns: int, e: Event)
    requires e == Initialized || e == Heartbeat || e == ShutDown || e == RuntimeStopped
    requires e !in initTrace
    ensures multiset(SuccessTrace(initTrace, early, n, ns))[e] ==
      if e == Heartbeat then n else 1
  {
    assert multiset(SignalLog(early))[e] == 0 by { SignalLogLacks(early, e); }
    HeartbeatsCount(n, ns, e);
    FixedLinesCount(e);
    SuccessTraceBag(initTrace, early, n, ns);
  }
}
