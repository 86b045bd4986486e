/** The classification performed by the `switch` in `setupSignalHandling`
    (src/main/main.go): every received signal number maps to one of three
    actions. Signal numbers are those of Go's `syscall` package on
    linux/amd64. */
module Signals {

  const SIGHUP := 1
  const SIGINT := 2
  const SIGQUIT := 3
  const SIGILL := 4
  const SIGTRAP := 5
  const SIGABRT := 6
  const SIGBUS := 7
  const SIGFPE := 8
  const SIGKILL := 9
  const SIGUSR1 := 10
  const SIGSEGV := 11
  const SIGUSR2 := 12
  const SIGPIPE := 13
  const SIGALRM := 14
  const SIGTERM := 15
  const SIGSTKFLT := 16
  const SIGCHLD := 17
  const SIGCONT := 18
  const SIGSTOP := 19
  const SIGTSTP := 20
  const SIGTTIN := 21
  const SIGTTOU := 22
  const SIGURG := 23
  const SIGXCPU := 24
  const SIGXFSZ := 25
  const SIGVTALRM := 26
  const SIGPROF := 27
  const SIGWINCH := 28
  const SIGPOLL := 29
  const SIGPWR := 30
  const SIGUNUSED := 31

  /** Stop: call StopApplication. Ignore: a listed case with an empty body.
      Warn: the default branch, which logs the signal as unknown. */
  datatype Action = Stop | Ignore | Warn

  /** The case list of the switch, in source order (the aliases SIGCLD,
      SIGIO, SIGIOT and SIGSYS are commented out there). Classify tests the
      same values in the same order; the lemmas below tie the two, and the
      set ListedSignals, together. */
  const SwitchCases: seq<int> := [
    SIGABRT, SIGALRM, SIGBUS, SIGCHLD, SIGCONT, SIGFPE, SIGHUP, SIGILL,
    SIGINT, SIGKILL, SIGPIPE, SIGPOLL, SIGPROF, SIGPWR, SIGQUIT, SIGSEGV,
    SIGSTKFLT, SIGSTOP, SIGTERM, SIGTRAP, SIGTSTP, SIGTTIN, SIGTTOU,
    SIGUNUSED, SIGURG, SIGUSR1, SIGUSR2, SIGVTALRM, SIGWINCH, SIGXCPU,
    SIGXFSZ]

  /** The signals the switch names, as a set. */
  const ListedSignals: set<int> := {
    SIGABRT, SIGALRM, SIGBUS, SIGCHLD, SIGCONT, SIGFPE, SIGHUP, SIGILL,
    SIGINT, SIGKILL, SIGPIPE, SIGPOLL, SIGPROF, SIGPWR, SIGQUIT, SIGSEGV,
    SIGSTKFLT, SIGSTOP, SIGTERM, SIGTRAP, SIGTSTP, SIGTTIN, SIGTTOU,
    SIGUNUSED, SIGURG, SIGUSR1, SIGUSR2, SIGVTALRM, SIGWINCH, SIGXCPU,
    SIGXFSZ}

  /** The cases whose body calls StopApplication. */
  const TerminateSignals: set<int> := {SIGHUP, SIGINT, SIGQUIT, SIGTERM}

  /** The switch itself: cases are tried in source order and, Go cases not
      falling through, an empty case does nothing. */
  function Classify(signum: int): (a: Action)
    ensures a == Stop <==> signum in TerminateSignals
    ensures a == Ignore <==> signum in ListedSignals - TerminateSignals
    ensures a == Warn <==> signum !in ListedSignals
  {
    if signum == SIGABRT then Ignore
    else if signum == SIGALRM then Ignore
    else if signum == SIGBUS then Ignore
    else if signum == SIGCHLD then Ignore
    else if signum == SIGCONT then Ignore
    else if signum == SIGFPE then Ignore
    else if signum == SIGHUP then Stop
    else if signum == SIGILL then Ignore
    else if signum == SIGINT then Stop
    else if signum == SIGKILL then Ignore
    else if signum == SIGPIPE then Ignore
    else if signum == SIGPOLL then Ignore
    else if signum == SIGPROF then Ignore
    else if signum == SIGPWR then Ignore
    else if signum == SIGQUIT then Stop
    else if signum == SIGSEGV then Ignore
    else if signum == SIGSTKFLT then Ignore
    else if signum == SIGSTOP then Ignore
    else if signum == SIGTERM then Stop
    else if signum == SIGTRAP then Ignore
    else if signum == SIGTSTP then Ignore
    else if signum == SIGTTIN then Ignore
    else if signum == SIGTTOU then Ignore
    else if signum == SIGUNUSED then Ignore
    else if signum == SIGURG then Ignore
    else if signum == SIGUSR1 then Ignore
    else if signum == SIGUSR2 then Ignore
    else if signum == SIGVTALRM then Ignore
    else if signum == SIGWINCH then Ignore
    else if signum == SIGXCPU then Ignore
    else if signum == SIGXFSZ then Ignore
    else Warn
  }

  /** No two cases share a value, so each signal number matches at most one
      case and the order of the cases does not affect the result. */
  lemma SwitchCasesDistinct()
    ensures forall i, j | 0 <= i < j < |SwitchCases| :: SwitchCases[i] != SwitchCases[j]
  {
  }

  /** Every value of the case list is decided by its own case, never by the
      default branch. */
  lemma ClassifyDecidesEveryCase(i: nat)
    requires i < |SwitchCases|
    ensures Classify(SwitchCases[i]) != Warn
  {
  }

  /** The set names exactly the switch's cases. */
  lemma ListedSignalsAreSwitchCases(signum: int)
    ensures signum in ListedSignals <==> signum in SwitchCases
  {
  }

  /** On linux/amd64 the switch lists exactly the numbers 1 to 31, so only
      numbers outside that range (real-time signals) draw a warning. */
  lemma WarnExactlyOutsideStandardRange(signum: int)
    ensures Classify(signum) == Warn <==> signum < 1 || 31 < signum
  {
  }
}
