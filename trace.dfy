/** Observable events of a process run: the log lines and phase steps whose
    order and number the lifecycle promises. */
module Trace {

  datatype Event =
    | LoggerReady                   // logging initialised, "starting application..."
    | SignalHandlingArmed           // signal.Notify installed, listener started
    | UsagePrinted                  // flag.Usage after a missing config path
    | ConfigLoadAttempt(path: string)
    | LevelSet(level: int)          // LOG.SetLevel from the loaded configuration
    | SignalReceived(signum: int)   // debug line for every received signal
    | UnknownSignal(signum: int)    // warning for a signal outside the switch
    | AppStarting                   // "starting application"
    | Initialized                   // initialize()
    | InitError(rc: int)            // initialize() returned a non-zero code
    | LoopStarted                   // "running main loop"
    | Heartbeat                     // mainLoopIteration()
    | Slept(ns: int)                // time.Sleep with this many nanoseconds
    | LoopError(rc: int)            // non-zero code after mainLoop()
    | ShutDown                      // shutdown()
    | ShutdownError(rc: int)        // non-zero code after shutdown()
    | InitFailed                    // "unable to initialize application"
    | RuntimeEnded(rc: int)         // main's report of RunApplication's code
    | RuntimeStopped                // shutdownApplication()
}
