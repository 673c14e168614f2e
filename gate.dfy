/**
 * The level gate and the console stream each severity writes to, checked
 * against the call counts the test suite expects for every pair of global
 * level and logger method.
 */
module Gate {
  import opened Levels

  /** The console functions a call that passes the gate is written to. */
  datatype Stream = ErrorStream | WarnStream | LogStream | DebugStream

  /**
   * The console function each severity's logging function is bound to: the
   * two most severe levels share `error`, the two least severe share `debug`.
   */
  function StreamOf(severity: Level): (s: Stream)
    ensures s == ErrorStream <==> Error.Rank() <= severity.Rank()
    ensures s == WarnStream <==> severity.Rank() == Warn.Rank()
    ensures s == LogStream <==> severity.Rank() == Info.Rank()
    ensures s == DebugStream <==> severity.Rank() <= Debug.Rank()
  {
    match severity
    case Fatal => ErrorStream
    case Error => ErrorStream
    case Warn => WarnStream
    case Info => LogStream
    case Debug => DebugStream
    case Trace => DebugStream
  }

  /**
   * The gate: a call of rank `rank` is dropped when it is below the
   * instance's level, if that is set (non-zero), and otherwise when it is
   * below the global threshold.
   */
  predicate Passes(rank: int, level: int, global: int) {
    if level != 0 then !(rank < level) else !(rank < global)
  }

  /** How many times each console function is called. */
  datatype Calls = Calls(error: nat, warn: nat, log: nat, debug: nat)

  function OneCall(s: Stream): Calls {
    match s
    case ErrorStream => Calls(1, 0, 0, 0)
    case WarnStream => Calls(0, 1, 0, 0)
    case LogStream => Calls(0, 0, 1, 0)
    case DebugStream => Calls(0, 0, 0, 1)
  }

  /** The console calls one call of `severity` makes on a logger without its own level, under global threshold `global`. */
  function CallsOf(severity: Level, global: int): Calls {
    if Passes(severity.Rank(), 0, global) then OneCall(StreamOf(severity)) else Calls(0, 0, 0, 0)
  }

  /**
   * The counts the test suite expects: row = global level, column = logger
   * method, both in the order fatal, error, warn, info, debug, trace.
   */
  const ExpectedCalls: seq<seq<Calls>> := [
    [Calls(1, 0, 0, 0), Calls(0, 0, 0, 0), Calls(0, 0, 0, 0), Calls(0, 0, 0, 0), Calls(0, 0, 0, 0), Calls(0, 0, 0, 0)],
    [Calls(1, 0, 0, 0), Calls(1, 0, 0, 0), Calls(0, 0, 0, 0), Calls(0, 0, 0, 0), Calls(0, 0, 0, 0), Calls(0, 0, 0, 0)],
    [Calls(1, 0, 0, 0), Calls(1, 0, 0, 0), Calls(0, 1, 0, 0), Calls(0, 0, 0, 0), Calls(0, 0, 0, 0), Calls(0, 0, 0, 0)],
    [Calls(1, 0, 0, 0), Calls(1, 0, 0, 0), Calls(0, 1, 0, 0), Calls(0, 0, 1, 0), Calls(0, 0, 0, 0), Calls(0, 0, 0, 0)],
    [Calls(1, 0, 0, 0), Calls(1, 0, 0, 0), Calls(0, 1, 0, 0), Calls(0, 0, 1, 0), Calls(0, 0, 0, 1), Calls(0, 0, 0, 0)],
    [Calls(1, 0, 0, 0), Calls(1, 0, 0, 0), Calls(0, 1, 0, 0), Calls(0, 0, 1, 0), Calls(0, 0, 0, 1), Calls(0, 0, 0, 1)]
  ]

  /** For every global level and every logger method, the gate and the routing give exactly the expected call counts. */
  lemma GateMatchesExpectedCalls(global: Level, severity: Level)
    ensures CallsOf(severity, global.Rank()) == ExpectedCalls[PositionInAll(global)][PositionInAll(severity)]
  {
  }

  /**
   * On a logger without its own level, a call passes exactly when its
   * severity is at or above the global level in the order trace, debug,
   * info, warn, error, fatal; with a level of its own, the global level
   * plays no part.
   */
  lemma GateOrder(severity: Level, global: Level, level: int, other: int)
    ensures Passes(severity.Rank(), 0, global.Rank()) <==> PositionInAll(severity) <= PositionInAll(global)
    ensures level != 0 ==> (Passes(severity.Rank(), level, other) <==> Passes(severity.Rank(), level, global.Rank()))
  {
  }
}
