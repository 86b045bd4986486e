/** The application lifecycle of src/main/app.go: the process-wide
    `AppData` record, the three phases initialize / mainLoop / shutdown,
    the stop request and their composition in RunApplication.

    The signal listener runs concurrently with the main loop. Here its
    effect is an input: `stops[k]` says whether the listener has called
    StopApplication just before the k-th check of the loop condition
    (k = 0 is the check on entry). */
module App {
  import opened Cfg
  import opened Trace

  const RcExitSuccess := 0
  const RcExitFailure := 1

  const MaxInt64 := 0x7fff_ffff_ffff_ffff
  const Modulus64 := 0x1_0000_0000_0000_0000
  const NanosPerMilli := 1_000_000

  /** Go's conversion to int64: two's-complement wrap-around. */
  function ToInt64(x: int): (r: int)
    ensures -MaxInt64 - 1 <= r <= MaxInt64
    ensures (r - x) % Modulus64 == 0
    ensures -MaxInt64 - 1 <= x <= MaxInt64 ==> r == x
  {
    var m := x % Modulus64;
    if m <= MaxInt64 then m else m - Modulus64
  }

  /** `time.Duration(MainLoopTimeout) * time.Millisecond`, in nanoseconds:
      the uint is converted to int64 and the product wraps in int64. */
  function SleepDuration(timeoutMs: Uint): (ns: int)
    ensures -MaxInt64 - 1 <= ns <= MaxInt64
    ensures timeoutMs <= MaxInt64 / NanosPerMilli ==> ns == timeoutMs * NanosPerMilli
  {
    ToInt64(ToInt64(timeoutMs) * NanosPerMilli)
  }

  /** A timeout just above the int64 range of nanoseconds wraps to a
      negative duration, for which time.Sleep returns at once. */
  lemma HugeTimeoutWrapsNegative()
    ensures SleepDuration(MaxInt64 / NanosPerMilli + 1) < 0
  {
  }

  /** Index of the first loop-head check before which a stop arrived. */
  function FirstStop(stops: seq<bool>): (k: nat)
    requires true in stops
    ensures k < |stops| && stops[k]
    ensures forall j | 0 <= j < k :: !stops[j]
  {
    if stops[0] then 0 else 1 + FirstStop(stops[1..])
  }

  /** The number of heartbeats mainLoop performs, given the run flag on
      entry and the stop schedule. */
  function TickCount(runningOnEntry: bool, stops: seq<bool>): (n: nat)
    requires runningOnEntry ==> true in stops
    ensures !runningOnEntry ==> n == 0
    ensures runningOnEntry ==> n < |stops| && stops[n] && forall j | 0 <= j < n :: !stops[j]
  {
    if runningOnEntry then FirstStop(stops) else 0
  }

  /** No tick starts once the loop has observed the stop: when the first
      stop arrives before check k, the loop performs exactly k heartbeats
      (none if the stop precedes the first check). */
  lemma TicksEqualStopCheck(stops: seq<bool>, k: nat)
    requires k < |stops| && stops[k]
    requires forall j | 0 <= j < k :: !stops[j]
    ensures TickCount(true, stops) == k
  {
  }

  /** The log of n loop iterations: each is one heartbeat followed by one
      sleep of the configured duration. */
  function Heartbeats(n: nat, ns: int): seq<Event>
  {
    if n == 0 then [] else Heartbeats(n - 1, ns) + [Heartbeat, Slept(ns)]
  }

  lemma {:induction false} HeartbeatsShape(n: nat, ns: int)
    ensures |Heartbeats(n, ns)| == 2 * n
    ensures forall i | 0 <= i < 2 * n ::
      Heartbeats(n, ns)[i] == if i % 2 == 0 then Heartbeat else Slept(ns)
  {
    if n > 0 {
      HeartbeatsShape(n - 1, ns);
    }
  }

  lemma {:induction false} HeartbeatsCount(n: nat, ns: int, e: Event)
    ensures multiset(Heartbeats(n, ns))[e] == if e == Heartbeat || e == Slept(ns) then n else 0
  {
    if n > 0 {
      HeartbeatsCount(n - 1, ns, e);
      assert multiset(Heartbeats(n, ns)) == multiset(Heartbeats(n - 1, ns)) + multiset{Heartbeat, Slept(ns)};
    }
  }

  /** What RunApplication does with the codes its phases return. */
  datatype PhaseRun = PhaseRun(code: int, loopRan: bool, shutdownRan: bool)

  /** The control flow of RunApplication for any phase codes. */
  function Sequenced(initRc: int, loopRc: int, shutdownRc: int): (r: PhaseRun)
    ensures r.loopRan <==> initRc == RcExitSuccess
    ensures r.shutdownRan == r.loopRan
    ensures !r.loopRan ==> r.code == RcExitFailure
    ensures initRc == RcExitSuccess ==> r.code == loopRc + shutdownRc
  {
    if initRc != RcExitSuccess then PhaseRun(RcExitFailure, false, false)
    else PhaseRun(initRc + loopRc + shutdownRc, true, true)
  }

  /** With phase codes drawn from {success, failure}, the run succeeds
      exactly when every phase succeeds, and the loop (and with it
      shutdown) runs exactly when initialize succeeds. */
  lemma SequencedMeaning(initRc: int, loopRc: int, shutdownRc: int)
    requires initRc in {RcExitSuccess, RcExitFailure}
    requires loopRc in {RcExitSuccess, RcExitFailure}
    requires shutdownRc in {RcExitSuccess, RcExitFailure}
    ensures Sequenced(initRc, loopRc, shutdownRc).code == RcExitSuccess <==>
      initRc == RcExitSuccess && loopRc == RcExitSuccess && shutdownRc == RcExitSuccess
    ensures Sequenced(initRc, loopRc, shutdownRc).loopRan <==> initRc == RcExitSuccess
  {
  }

  /** The fields of AppData as a value. */
  datatype AppState = AppState(runMainLoop: bool, cfgFile: string)

  function AfterInitialize(s: AppState): AppState
  {
    s.(runMainLoop := true)
  }

  function AfterStop(s: AppState): AppState
  {
    s.(runMainLoop := false)
  }

  /** A second StopApplication changes nothing. */
  lemma StopIdempotent(s: AppState)
    ensures AfterStop(AfterStop(s)) == AfterStop(s)
  {
  }

  /** Once the flag is false, as it is when the main loop has ended,
      StopApplication changes nothing. */
  lemma StopWhenStoppedIsNoOp(s: AppState)
    requires !s.runMainLoop
    ensures AfterStop(s) == s
  {
  }

  /** initialize discards a stop requested before it. */
  lemma InitializeOverridesStop(s: AppState)
    ensures AfterInitialize(AfterStop(s)) == AfterInitialize(s)
    ensures AfterInitialize(s).runMainLoop
  {
  }

  class AppData {
    var runMainLoop: bool
    var cfgFile: string

    function State(): AppState
      reads this
    {
      AppState(runMainLoop, cfgFile)
    }

    /** `new(AppData)`: Go's zero value. */
    constructor ()
      ensures State() == AppState(false, "")
    {
      runMainLoop := false;
      cfgFile := "";
    }

    method Initialize() returns (rc: int)
      modifies this`runMainLoop
      ensures State() == AfterInitialize(old(State()))
      ensures rc == RcExitSuccess
    {
      runMainLoop := true;
      rc := RcExitSuccess;
    }

    method Shutdown() returns (rc: int)
      ensures rc == RcExitSuccess
    {
      rc := RcExitSuccess;
    }

    /** One heartbeat; it changes no state. */
    method MainLoopIteration() returns (e: Event)
      ensures e == Heartbeat
    {
      e := Heartbeat;
    }

    method StopApplication()
      modifies this`runMainLoop
      ensures State() == AfterStop(old(State()))
    {
      runMainLoop := false;
    }

    /** The listener's effect before the check-th loop-head check:
        StopApplication when a stop-family signal was handled, nothing
        otherwise (and nothing once the schedule is exhausted). */
    method ListenerWindow(stops: seq<bool>, check: nat)
      modifies this`runMainLoop
      ensures State() == if check < |stops| && stops[check] then AfterStop(old(State())) else old(State())
    {
      if check < |stops| && stops[check] {
        StopApplication();
      }
    }

    method MainLoop(timeoutMs: Uint, stops: seq<bool>) returns (rc: int, trace: seq<Event>)
      requires runMainLoop ==> true in stops
      modifies this`runMainLoop
      ensures rc == RcExitSuccess
      ensures State() == AfterStop(old(State()))
      ensures trace == [LoopStarted] + Heartbeats(TickCount(old(runMainLoop), stops), SleepDuration(timeoutMs))
    {
      ghost var ticks := TickCount(runMainLoop, stops);
      var pause := SleepDuration(timeoutMs);
      var check := 0;
      trace := [LoopStarted];
      ListenerWindow(stops, check);
      while runMainLoop
        invariant check <= ticks
        invariant runMainLoop <==> check < ticks
        invariant trace == [LoopStarted] + Heartbeats(check, pause)
        decreases ticks - check
      {
        var beat := MainLoopIteration();
        trace := trace + [beat, Slept(pause)];
        check := check + 1;
        ListenerWindow(stops, check);
      }
      rc := RcExitSuccess;
    }

    /** initialize, then mainLoop and shutdown, adding up their codes. */
    method RunApplication(timeoutMs: Uint, stops: seq<bool>) returns (rc: int, trace: seq<Event>)
      requires true in stops
      modifies this`runMainLoop
      ensures rc == Sequenced(RcExitSuccess, RcExitSuccess, RcExitSuccess).code == RcExitSuccess
      ensures State() == AfterStop(old(State()))
      ensures trace == [AppStarting, Initialized] +
        ([LoopStarted] + Heartbeats(FirstStop(stops), SleepDuration(timeoutMs))) + [ShutDown]
    {
      trace := [AppStarting, Initialized];
      rc := Initialize();
      if rc != RcExitSuccess {
        trace := trace + [InitError(rc)];
        rc := RcExitFailure;
        return;
      }
      var loopRc, beats := MainLoop(timeoutMs, stops);
      rc := rc + loopRc;
      trace := trace + beats;
      if rc != RcExitSuccess {
        trace := trace + [LoopError(rc)];
      }
      var shutdownRc := Shutdown();
      rc := rc + shutdownRc;
      trace := trace + [ShutDown];
      if rc != RcExitSuccess {
        trace := trace + [ShutdownError(rc)];
      }
    }
  }
}
