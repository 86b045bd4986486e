# Lifecycle of a Go application template, modelled in Dafny

The repository is a skeleton for a long-running Go process. `main` initialises
logging, arms a signal listener, reads the `-c`/`-cfg` configuration path,
loads the JSON configuration and sets the log level. It then runs the
application: `initialize` sets the run flag, `mainLoop` logs a heartbeat and
sleeps for `MainLoopTimeout` milliseconds while the flag is true, and
`shutdown` reports success. The listener turns SIGHUP, SIGINT, SIGQUIT and
SIGTERM into `StopApplication`, which clears the flag. It ignores the other
signals in its switch and logs every other signal as unknown.

Files:

- `cfg.dfy`: the configuration record (`ConfigurationHolder`) and Go's `uint`.
- `trace.dfy`: the observable events (log lines, phase steps) that a run produces.
- `signals.dfy`: the listener's `switch` as a pure classifier. Signal numbers
  are those of Go's `syscall` package on linux/amd64.
- `app.dfy`: the `AppData` record as a class, with the phases of `app.go` as
  methods and the specification functions they are proved against.
- `driver.dfy`: the listener's work per signal, `processArgumets`,
  `initApplication` and `main`, which is modelled as `RunProcess`.

The listener goroutine is concurrent with the main loop. The model makes it
sequential: the input `stops[k]` says whether the listener called
`StopApplication` before the loop's k-th check of its condition (k = 0 is the
check on entry). `Driver.StopSchedule` derives `stops` from the batches of
signals the listener handles. `Driver.HandleBatch` proves that one batch
clears the flag exactly when it holds a stop-family signal, and
`Driver.BatchWindow` proves that handling the batch before check k has the
effect on the flag that `stops[k]` stands for. Flag parsing,
logger initialisation and configuration loading are inputs of `RunProcess`:
`cfgArg`, `loggerOk` and a `loader` function from path to optional record.

Behaviour of the code worth noting:

- The path comes from the `-c`/`-cfg` flags.
- If initialisation fails, neither `shutdown` nor `shutdownApplication` runs.
- The run flag starts false (Go's zero value) until `initialize` sets it.
- `StopApplication` is a plain assignment, so a stop requested before
  `initialize` is overwritten (`App.InitializeOverridesStop`; in `RunProcess`
  the signals in `early` do not change the heartbeat count).
- `RunApplication` returns the sum of the loop's and shutdown's codes once
  `initialize` succeeds (`App.Sequenced`), so the code would be 2 if both
  later phases failed.
- `initialize`, `mainLoop` and `shutdown` always return success, so the
  error branches of `RunApplication` cannot be reached. `App.Sequenced`
  states that control flow for any phase codes. `App.AppData.RunApplication`
  takes the branches as written and is proved to return
  `Sequenced(0, 0, 0).code`, which is success.

## Model

| member | source | states |
|---|---|---|
| `Signals.Classify` | src/main/main.go:44-86 | SIGHUP, SIGINT, SIGQUIT and SIGTERM, and only these, stop the application. The other listed signals are ignored. Every signal outside the listed set draws the warning. |
| `Signals.SwitchCasesDistinct` | src/main/main.go:45-83 | No two case values are equal (the aliases are commented out), so each signal number matches at most one case. |
| `Signals.ClassifyDecidesEveryCase` | src/main/main.go:45-83 | Every value in the case list is decided by its own case and never reaches the default branch. |
| `Signals.ListedSignalsAreSwitchCases` | src/main/main.go:45-83 | The set used by the classifier's contract holds exactly the switch's case values. |
| `Signals.WarnExactlyOutsideStandardRange` | src/main/main.go:84-85 | On linux/amd64 the switch lists numbers 1 to 31, so exactly the numbers outside that range are warned about as unknown. |
| `App.ToInt64` | src/main/app.go:60 | Go's conversion to int64 gives a value in the int64 range, congruent to the input modulo 2^64, and leaves in-range values unchanged. |
| `App.SleepDuration` | src/main/app.go:60 | The sleep is the timeout in milliseconds times 1,000,000 nanoseconds whenever that product fits in int64, and it always lies in the int64 range. |
| `App.HugeTimeoutWrapsNegative` | src/main/app.go:60 | A timeout one past the largest representable one wraps to a negative duration, so the loop does not sleep. |
| `App.FirstStop` | src/main/app.go:58-61 | The index of the first loop-head check preceded by a stop: a stop arrived there and at no earlier check. |
| `App.TickCount` | src/main/app.go:58-61 | With the flag false on entry, no heartbeat runs. Otherwise the number of heartbeats is the first check preceded by a stop, and no stop came before an earlier check. |
| `App.TicksEqualStopCheck` | src/main/app.go:58-61 | When the first stop arrives before check k, the loop performs exactly k heartbeats, so no tick starts after the stop is observed. |
| `App.HeartbeatsShape` | src/main/app.go:58-60 | The log of n iterations has 2n entries and alternates heartbeat and sleep, each sleep of the configured duration. |
| `App.HeartbeatsCount` | src/main/app.go:56-69 | n iterations log exactly n heartbeats and n sleeps and no other event. |
| `App.Sequenced` | src/main/app.go:81-104 | The loop runs exactly when initialize returns the success code, whatever the codes are. Shutdown runs exactly when the loop runs, including after a failed loop. A run in which the loop does not run reports failure. Once initialize succeeds, the code is the sum of the loop's and shutdown's codes. |
| `App.SequencedMeaning` | src/main/app.go:84-103 | With phase codes of success or failure, the run succeeds exactly when every phase succeeds, and the loop runs exactly when initialize succeeds. |
| `App.StopWhenStoppedIsNoOp` | src/main/app.go:76-78 | Once the flag is false, as after the main loop, a stop leaves the state unchanged. |
| `App.StopIdempotent` | src/main/app.go:76-78 | Stopping twice gives the same state as stopping once. |
| `App.InitializeOverridesStop` | src/main/app.go:41-46 | initialize sets the flag whatever it held, so a stop requested earlier is lost. |
| `App.AppData.constructor` | src/main/app.go:30 | The global record starts with the flag false and an empty path. |
| `App.AppData.Initialize` | src/main/app.go:41-46 | Sets the flag to true, leaves the path, and returns success. |
| `App.AppData.Shutdown` | src/main/app.go:49-53 | Changes nothing and returns success. |
| `App.AppData.MainLoopIteration` | src/main/app.go:67-69 | Logs one heartbeat and changes no state. |
| `App.AppData.StopApplication` | src/main/app.go:76-78 | Clears the flag and leaves the configuration path unchanged. |
| `App.AppData.ListenerWindow` | src/main/main.go:52-71 | The listener's effect between two loop-head checks: a stop clears the flag, and otherwise nothing changes. |
| `App.AppData.MainLoop` | src/main/app.go:56-64 | Returns success with the flag cleared. Its log is the "running main loop" line, then `TickCount` iterations of one heartbeat followed by one sleep. |
| `App.AppData.RunApplication` | src/main/app.go:81-104 | Runs initialize, the loop and shutdown, and returns the sum of their codes, which is success. Its log is the starting line, the initialize line, the loop's log with one iteration per check before the first stop, then the shutdown line. |
| `Driver.SignalRecords` | src/main/main.go:42-85 | Every received signal is debug-logged first. A warning follows exactly for an unlisted signal, and nothing else is logged. |
| `Driver.SignalLogCounts` | src/main/main.go:40-87 | Over a batch, each received signal is logged once, each unlisted one draws exactly one warning, and the listener logs no other event. |
| `Driver.SignalLogEvents` | src/main/main.go:40-87 | The listener's log holds only signal lines and unknown-signal warnings. |
| `Driver.SignalLogLacks` | src/main/main.go:40-87 | The listener's log holds no line other than signal lines and unknown-signal warnings, counted per event. |
| `Driver.BatchWindow` | src/main/main.go:40-87 | Handling the batch that arrives before the loop's k-th check clears the flag exactly when the stop schedule marks that check, and leaves the state unchanged otherwise. |
| `Driver.HandleSignal` | src/main/main.go:41-86 | Logs the signal. A stop-family signal clears the flag; any other signal leaves the state unchanged, and only an unlisted one is warned about. |
| `Driver.HandleBatch` | src/main/main.go:40-87 | After a batch, the flag is cleared exactly when some signal in it is of the stop family. The log is the per-signal log in order. |
| `Driver.ProcessArguments` | src/main/main.go:92-107 | An empty path prints usage, returns failure and leaves the stored path. Any other path is stored and success is returned. |
| `Driver.InitApplication` | src/main/main.go:110-135 | Logger failure panics. An empty path fails. A load returning nothing fails. Only after a successful load is the log level set from the configuration, and then success is returned. |
| `Driver.RunProcess` | src/main/main.go:148-171 | If initialisation fails, the log is exactly the initialisation log, then the listener's log of the signals handled meanwhile, then the failure line, and the process exits with failure. That log ends with the failure, sets no log level and shows no phase (no starting line, initialize, heartbeat or shutdown) and no shutdownApplication. Otherwise the process exits with RunApplication's success code and the log is the initialisation log, the early signals, RunApplication's log, the end-of-run report and shutdownApplication, in that order. It contains the configured log level; initialize, shutdown and shutdownApplication each appear once; the last three lines of the modelled log (which leaves out signals handled after the loop's last check) are shutdown, the report and shutdownApplication. The number of heartbeats is the index of the first check preceded by a stop, whatever arrived before initialize. |
| `Driver.InitTraceEvents` | src/main/main.go:110-135 | The initialisation log never shows a phase of the application, initialize, a heartbeat, shutdown, shutdownApplication or the failure line. It contains the configured log level when initialisation succeeds, and no log-level line at all when it fails. |
| `Driver.FailedInitTrace` | src/main/main.go:151-156 | After a failed initialisation, main's log ends with the failure line, shows no phase and no shutdownApplication, and sets no log level, whatever signals the listener logged meanwhile. |
| `Driver.RunInitialized` | src/main/main.go:158-170 | After a successful initialisation, main exits with success, and its log is the early signals' log, RunApplication's log, the success report and shutdownApplication, appended to the initialisation log in that order. |
| `Driver.SuccessTraceFacts` | src/main/main.go:158-170 | For any initialisation log that sets a level and shows no phase: a successful run keeps that level line, logs initialize, shutdown and shutdownApplication once each and n heartbeats, and ends with shutdown, the success report and shutdownApplication. |
| `Driver.SuccessTraceEnd` | src/main/main.go:158-170 | A successful run's log keeps every line of the initialisation log and ends with shutdown, the success report and shutdownApplication. |
| `Driver.SuccessTraceBag` | src/main/main.go:158-170 | Counted without order, a successful run's log is the initialisation log, the early signals' log, the heartbeats and sleeps, and one each of the starting line, initialize, loop start, shutdown, the success report and shutdownApplication. |
| `Driver.RunTraceCount` | src/main/main.go:158-170 | In a successful run's trace, initialize, shutdown and shutdownApplication each occur once and heartbeats occur n times, whatever the initialisation trace (without these events) and the early signals were. |

## Left out

- Concurrency: the listener goroutine, the signal channel and `signal.Notify`
  become sequential inputs (`early`, `arrivals`, `stops`). The unsynchronised
  read and write of `runMainLoop` (a data race in Go's memory model) is not
  modelled.
- A run in which no stop-family signal ever arrives does not terminate in the
  source. The model's loop and `RunProcess` require that the schedule
  eventually holds a stop once the flag is set.
- The listener keeps receiving signals until the process exits. Signals
  handled after `early` are not in the trace. That covers the ones handled
  while the loop runs and the ones handled after it, during shutdown, main's
  report and shutdownApplication, until `os.Exit`. The effect on the flag of
  those handled while the loop runs is `StopSchedule`. After the loop, their
  StopApplication changes nothing because the flag is already false
  (`App.StopWhenStoppedIsNoOp`). Their debug and warning lines can fall
  between shutdown's line and shutdownApplication's in the real log. The last
  three lines that `CompletedRun` states are those of the modelled log.
- Signals handled while `initApplication` runs, or after it and before
  `initialize` runs, are logged as one block, `SignalLog(early)`. The block
  comes after the initialisation log and before the starting line, not
  interleaved with the lines of that window. The listener is armed before the
  arguments are processed and the configuration is loaded. This holds on both
  the failure and the success path.
- Wall-clock time: `time.Sleep` is a `Slept(ns)` event, and latency is counted
  in loop-head checks.
- The logging library (`src/log/log.go`): the log calls of `app.go` and
  `main.go` are trace events, without their text or level. The lines logged
  inside the logging library and the configuration loader are not events.
  `LOG.Initialize` is the input `loggerOk`.
- Driver.InitApplication: the "starting application..." and "setting up
  signal handling" lines are folded into the `LoggerReady` and
  `SignalHandlingArmed` events.
- The configuration loader (`src/cfg/cfg.go`): file opening, reading and JSON
  decoding are the input `loader`. The `CFG.Get()` global is passed as the
  loaded record.
- `flag` parsing (aliases, `=` forms, usage text, exit on a bad flag) is the
  input `cfgArg`. `os.Exit` and `panic` are `ProcessEnd` values, and Go's
  exit status for a panic is not modelled.
- Signal numbers are those of linux/amd64. Other architectures number some
  signals differently. That SIGKILL and SIGSTOP cannot be caught is not
  modelled.
