/**
 * The test suite's scenarios replayed against the model: each method sets
 * up the suite's two loggers and checks what the suite expects.
 */
module Scenarios {
  import opened Wrappers
  import opened Levels
  import opened Labels
  import opened Gate
  import opened Format
  import opened DebugLevels

  lemma StartsWithJoin(a: string, b: string)
    ensures StartsWith(a + b, a)
  {
    assert (a + b)[..|a|] == a;
  }

  /**
   * The suite's set-up: the global level is info, `logger` is the logger
   * for "testingnamespace" and `child` its sub-logger "child", whose level
   * is unset.
   */
  method Setup(isNode: bool) returns (ctx: LoggingContext, logger: Logger, child: Logger)
    ensures ctx.Valid() && logger.Registered() && child.Registered()
    ensures logger.ctx == ctx && child.ctx == ctx && ctx.isNode == isNode
    ensures ctx.global == Info.Rank()
    ensures logger.namespace == "testingnamespace" && child.namespace == "testingnamespace" + ":" + "child"
    ensures logger.level == 0 && child.level == 0 && logger != child
    ensures fresh(ctx) && fresh(logger) && fresh(child)
  {
    ctx := new LoggingContext(isNode, None);
    LookupRoundTrip(Info);
    var ok := ctx.SetLevel(Some(Info.Name()));
    logger := ctx.CreateLogger("testingnamespace");
    child := logger.CreateLogger("child");
    ok := child.SetLevel(None);
  }

  /**
   * What the suite's fake console sees of one call of `severity` on
   * `logger`: whether it is called, and which of its functions.
   */
  method ConsoleCall(logger: Logger, severity: Level, text: string) returns (s: Option<Stream>)
    ensures s.Some? <==> Passes(severity.Rank(), logger.level, logger.ctx.global)
    ensures s.Some? ==> s.value == StreamOf(severity)
  {
    var w := logger.Log(severity, text);
    s := if w.Some? then Some(w.value.stream) else None;
  }

  /** With the global level set to fatal and then to error, a `logger.fatal` call reaches the error function each time. */
  method SetNewLevels(text: string) returns (first: Option<Stream>, second: Option<Stream>)
    ensures first == Some(ErrorStream) && second == Some(ErrorStream)
  {
    var ctx, logger, child := Setup(true);
    LookupRoundTrip(Fatal);
    LookupRoundTrip(Error);
    var ok := ctx.SetLevel(Some("fatal"));
    first := ConsoleCall(logger, Fatal, text);
    ok := ctx.SetLevel(Some("error"));
    second := ConsoleCall(logger, Fatal, text);
  }

  /**
   * Under global level `severity`, a call of that level on `logger` writes
   * once, to that level's stream, and the written line is blanks followed
   * by the upper-case level name (for a line that starts with the
   * namespace on a Node-like host, and for any line elsewhere).
   */
  method PrefixWithLevel(isNode: bool, severity: Level, text: string) returns (w: Write)
    ensures w.stream == StreamOf(severity)
    ensures StartsWith(TrimStart(w.line), Upper(severity.Name()))
  {
    var ctx, logger, child := Setup(isNode);
    LookupRoundTrip(severity);
    var ok := ctx.SetLevel(Some(severity.Name()));
    var line := logger.namespace + text;
    assert ctx.global == severity.Rank();
    var out := logger.Log(severity, line);
    w := out.value;
    StartsWithJoin(logger.namespace, text);
    LabelFirst(isNode, logger.namespace, severity, line);
  }

  /** The console calls one call of `severity` on `logger` makes under global level `global`, as counted by the suite. */
  method CallCounts(global: Level, severity: Level, text: string) returns (calls: Calls)
    ensures calls == ExpectedCalls[PositionInAll(global)][PositionInAll(severity)]
  {
    var ctx, logger, child := Setup(true);
    LookupRoundTrip(global);
    var ok := ctx.SetLevel(Some(global.Name()));
    var s := ConsoleCall(logger, severity, text);
    calls := if s.Some? then OneCall(s.value) else Calls(0, 0, 0, 0);
    GateMatchesExpectedCalls(global, severity);
  }

  /**
   * The child without a level of its own follows the global level: under
   * info it drops every call below info (the suite tries trace).
   */
  method ChildFollowsGlobal(severity: Level, text: string) returns (s: Option<Stream>)
    requires severity.Rank() < Info.Rank()
    ensures s.None?
  {
    var ctx, logger, child := Setup(true);
    s := ConsoleCall(child, severity, text);
  }

  /**
   * Once the child's own level is `severity`, a call of that level on it
   * reaches that level's console function, whatever the global level (the
   * suite sets trace, whose function is debug).
   */
  method ChildOwnLevel(severity: Level, text: string) returns (s: Option<Stream>)
    ensures s == Some(StreamOf(severity))
    ensures severity == Trace ==> s == Some(DebugStream)
  {
    var ctx, logger, child := Setup(true);
    LookupRoundTrip(severity);
    var ok := child.SetLevel(Some(severity.Name()));
    s := ConsoleCall(child, severity, text);
  }

  /**
   * Setting the parent's own level leaves the child's level unset: the
   * parent's level is then `parentLevel`'s rank and the child's is still 0.
   * Under global info, a call the parent's new level drops still reaches
   * the console through the child (for instance parent level fatal and an
   * info call).
   */
  method ParentLevelLeavesChild(parentLevel: Level, severity: Level, text: string)
      returns (parentRank: int, childRank: int, parentCall: Option<Stream>, childCall: Option<Stream>)
    requires Info.Rank() <= severity.Rank() < parentLevel.Rank()
    ensures parentRank == parentLevel.Rank() && childRank == 0
    ensures parentCall.None?
    ensures childCall == Some(StreamOf(severity))
  {
    var ctx, logger, child := Setup(true);
    LookupRoundTrip(parentLevel);
    var ok := logger.SetLevel(Some(parentLevel.Name()));
    parentRank, childRank := logger.level, child.level;
    parentCall := ConsoleCall(logger, severity, text);
    childCall := ConsoleCall(child, severity, text);
  }

  /** Asking for "testingnamespace" again gives back the logger made in the set-up. */
  method SameNamespaceSameLogger() returns (same: bool)
    ensures same
  {
    var ctx, logger, child := Setup(true);
    var again := ctx.CreateLogger("testingnamespace");
    same := again == logger;
  }

  /** Under global info, `levelEnabled` holds for info and the levels above it: false for debug, true for info and fatal. */
  method LevelEnabledAtInfo(l: Level) returns (r: Result<bool, LogError>)
    ensures r == Success(Info.Rank() <= l.Rank())
    ensures l == Debug ==> r == Success(false)
    ensures l == Info || l == Fatal ==> r == Success(true)
  {
    var atInfo := Info.Rank() <= l.Rank();
    assert l == Debug ==> !atInfo;
    assert l == Info || l == Fatal ==> atInfo;
    var ctx := new LoggingContext(true, None);
    LookupRoundTrip(Info);
    var ok := ctx.SetLevel(Some(Info.Name()));
    LookupRoundTrip(l);
    RankKeyIsNoName(l.Name());
    r := ctx.LevelEnabled(ByName(l.Name()));
    assert r == Success(atInfo);
  }
}
