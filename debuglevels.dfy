/**
 * The logger factory: the global threshold, the registry of loggers by
 * namespace, and per-namespace loggers with an optional level of their own.
 */
module DebugLevels {
  import opened Wrappers
  import opened Levels
  import opened Labels
  import opened Gate
  import opened Format

  /** The errors the library throws. */
  datatype LogError =
    | InvalidLogLevel(levelName: Option<string>)  // a setter got something that is not a level name
    | NotALevel                                   // `levelEnabled` got neither a name nor a rank

  /** `items` joined with `sep` between neighbours. */
  function Join(items: seq<string>, sep: string): string {
    if items == [] then ""
    else if |items| == 1 then items[0]
    else items[0] + sep + Join(items[1..], sep)
  }

  /** The message of the thrown `Error`; an absent argument prints as "undefined". */
  function Message(e: LogError): string {
    match e
    case InvalidLogLevel(n) =>
      "Invalid logLevel " + (if n.Some? then n.value else "undefined") + ", can be one of: " + Join(Names(), ", ")
    case NotALevel =>
      "\"level\" must be either a numeric log level or a log level name."
  }

  /** Joining one more item appends the separator and that item. */
  lemma {:induction false} JoinSnoc(items: seq<string>, item: string, sep: string)
    requires items != []
    ensures Join(items + [item], sep) == Join(items, sep) + sep + item
  {
    if |items| == 1 {
      assert (items + [item])[1..] == [item];
    } else {
      assert (items + [item])[1..] == items[1..] + [item];
      JoinSnoc(items[1..], item, sep);
    }
  }

  /** The invalid-level message names the rejected value and lists the six names in table order, separated by ", ". */
  lemma InvalidLevelMessage(s: string)
    ensures Message(InvalidLogLevel(Some(s)))
         == "Invalid logLevel " + s + ", can be one of: "
            + ("fatal" + ", " + "error" + ", " + "warn" + ", " + "info" + ", " + "debug" + ", " + "trace")
  {
    NamesJoinedBy(", ");
  }

  /** The table's names joined by `sep`, spelled out. */
  lemma NamesJoinedBy(sep: string)
    ensures Join(Names(), sep) == "fatal" + sep + "error" + sep + "warn" + sep + "info" + sep + "debug" + sep + "trace"
  {
    var names := Names();
    assert names == ["fatal", "error", "warn", "info", "debug", "trace"];
    assert Join(["fatal"], sep) == "fatal";
    JoinSnoc(["fatal"], "error", sep);
    assert ["fatal"] + ["error"] == ["fatal", "error"];
    JoinSnoc(["fatal", "error"], "warn", sep);
    assert ["fatal", "error"] + ["warn"] == ["fatal", "error", "warn"];
    JoinSnoc(["fatal", "error", "warn"], "info", sep);
    assert ["fatal", "error", "warn"] + ["info"] == ["fatal", "error", "warn", "info"];
    JoinSnoc(["fatal", "error", "warn", "info"], "debug", sep);
    assert ["fatal", "error", "warn", "info"] + ["debug"] == ["fatal", "error", "warn", "info", "debug"];
    JoinSnoc(["fatal", "error", "warn", "info", "debug"], "trace", sep);
    assert ["fatal", "error", "warn", "info", "debug"] + ["trace"] == names;
  }

  /** An argument as JavaScript falsiness sees it: absent or empty. */
  predicate Falsy(levelName: Option<string>) {
    levelName.None? || levelName.value == ""
  }

  /** The argument of `levelEnabled`: a string or a number. */
  datatype LevelArg = ByName(name: string) | ByNumber(rank: int)

  /** `String(n)` for a non-negative integer: its decimal digits, most significant first. */
  function Decimal(n: nat): (s: string)
    ensures s != [] && forall i :: 0 <= i < |s| ==> '0' <= s[i] <= '9'
  {
    if n < 10 then [('0' as int + n) as char]
    else Decimal(n / 10) + [('0' as int + n % 10) as char]
  }

  /** The keys of the rank-to-name map, which JavaScript holds as the ranks' decimal strings. */
  predicate IsRankKey(s: string) {
    exists l: Level :: Decimal(l.Rank()) == s
  }

  /** A rank's key begins with a digit, so it is never a level name. */
  lemma RankKeyIsNoName(s: string)
    ensures IsRankKey(s) ==> !IsLevelName(s)
  {
    if IsLevelName(s) {
      var m := FromName(s).value;
      assert 'a' <= s[0] <= 'z' by { assert m.Name() == s; }
      assert !IsRankKey(s);
    }
  }

  /** Whether `levelEnabled` accepts the argument: it is a key of the by-name map or of the by-rank map. */
  predicate Known(a: LevelArg) {
    match a
    case ByName(s) => IsLevelName(s) || IsRankKey(s)
    case ByNumber(k) => IsRank(k)
  }

  /** A missing, empty or unknown setting names no level. */
  lemma NoLevelStored(stored: Option<string>)
    requires Falsy(stored) || !IsLevelName(stored.value)
    ensures forall l: Level :: stored != Some(l.Name())
  {
    forall l: Level ensures stored != Some(l.Name()) {
      LookupRoundTrip(l);
      assert |l.Name()| > 0;
    }
  }

  /**
   * The initial global threshold from the stored setting (`DEBUG_LEVEL` in
   * the environment, or `debugLevel` in local storage); `None` stands for a
   * setting that is missing or could not be read.
   */
  function InitialLevel(stored: Option<string>): (rank: int)
    ensures IsRank(rank)
    ensures forall l: Level :: stored == Some(l.Name()) ==> rank == l.Rank()
    ensures stored.None? || !IsLevelName(stored.value) ==> rank == Info.Rank()
  {
    if Falsy(stored) || !IsLevelName(stored.value) then
      LookupRoundTrip(Info);
      NoLevelStored(stored);
      Info.Rank()
    else
      var l := FromName(stored.value).value;
      assert forall l': Level :: stored == Some(l'.Name()) ==> l' == l by {
        forall l': Level | stored == Some(l'.Name()) ensures l' == l {
          TableIsBijective(l, l');
        }
      }
      LookupRoundTrip(l);
      l.Rank()
  }

  /** One call on the console: which function, and the rewritten first argument. */
  datatype Write = Write(stream: Stream, line: string)

  /** The module's shared state: the host kind, the global threshold and the registry. */
  class LoggingContext {
    /** Whether the host is Node-like; fixed when the module loads. */
    const isNode: bool
    /** The global threshold, a rank. */
    var global: int
    /** The loggers created so far, by namespace. */
    var registry: map<string, Logger>

    /** The global threshold is a rank, and each registered logger has its key as namespace, belongs here and has a valid level. */
    ghost predicate Valid()
      reads this, registry.Values
    {
      IsRank(global) &&
      forall ns :: ns in registry ==>
        registry[ns].namespace == ns && registry[ns].ctx == this && registry[ns].LevelValid()
    }

    /** Loading the module: the threshold comes from the stored setting and no logger exists yet. */
    constructor(isNode: bool, stored: Option<string>)
      ensures Valid()
      ensures this.isNode == isNode && global == InitialLevel(stored) && registry == map[]
    {
      this.isNode := isNode;
      global := InitialLevel(stored);
      registry := map[];
    }

    /** The global level's name. */
    function GetLevel(): (name: Option<string>)
      reads this
      ensures name.Some? <==> IsRank(global)
      ensures name.Some? ==> FromName(name.value) == FromRank(global)
    {
      match FromRank(global)
      case None => None
      case Some(l) => LookupRoundTrip(l); Some(l.Name())
    }

    /** Sets the global threshold by name; anything that is not a level name is rejected and changes nothing. */
    method SetLevel(levelName: Option<string>) returns (r: Outcome<LogError>)
      requires Valid()
      modifies this`global
      ensures Valid()
      ensures r.Pass? <==> levelName.Some? && IsLevelName(levelName.value)
      ensures r.Pass? ==> global == FromName(levelName.value).value.Rank() && GetLevel() == levelName
      ensures r.Fail? ==> r == Fail(InvalidLogLevel(levelName)) && global == old(global)
    {
      if levelName.None? || !IsLevelName(levelName.value) {
        return Fail(InvalidLogLevel(levelName));
      }
      var l := FromName(levelName.value).value;
      LookupRoundTrip(l);
      global := l.Rank();
      r := Pass;
    }

    /**
     * Whether a logger without a level of its own would let a call of the
     * given level through; an argument that is neither a name nor a rank is
     * an error, and a rank written as a string is accepted but compares as
     * false.
     */
    function LevelEnabled(level: LevelArg): (r: Result<bool, LogError>)
      reads this
      ensures r.Failure? <==> !Known(level)
      ensures r.Failure? ==> r.error == NotALevel
      ensures forall l: Level :: level == ByName(l.Name()) || level == ByNumber(l.Rank())
                ==> r == Success(Passes(l.Rank(), 0, global))
      ensures level.ByName? && IsLevelName(level.name) ==> r == Success(Passes(FromName(level.name).value.Rank(), 0, global))
      ensures level.ByName? && IsRankKey(level.name) ==> r == Success(false)
    {
      if !Known(level) then Failure(NotALevel)
      else
        match level
        case ByNumber(k) => Success(global <= k)
        case ByName(s) =>
          RankKeyIsNoName(s);
          match FromName(s)
          case None => Success(false)
          case Some(l) =>
            assert forall l': Level :: level == ByName(l'.Name()) ==> l' == l by {
              forall l': Level | level == ByName(l'.Name()) ensures l' == l {
                TableIsBijective(l, l');
              }
            }
            Success(global <= l.Rank())
    }

    /**
     * The logger for `namespace`: the registered one when there is one, with
     * nothing changed; otherwise a new logger without a level of its own,
     * which is registered.
     */
    method CreateLogger(namespace: string) returns (logger: Logger)
      requires Valid()
      modifies this`registry
      ensures Valid()
      ensures logger.ctx == this && logger.namespace == namespace
      ensures namespace in registry && registry[namespace] == logger
      ensures old(namespace in registry) ==> logger == old(registry[namespace]) && registry == old(registry)
      ensures !old(namespace in registry) ==>
                fresh(logger) && logger.level == 0 && registry == old(registry)[namespace := logger]
    {
      if namespace in registry {
        return registry[namespace];
      }
      logger := new Logger(this, namespace);
      registry := registry[namespace := logger];
    }
  }

  /** A logger for one namespace. */
  class Logger {
    const ctx: LoggingContext
    const namespace: string
    /** The logger's own threshold; 0 means that it defers to the global one. */
    var level: int

    constructor(ctx: LoggingContext, namespace: string)
      ensures this.ctx == ctx && this.namespace == namespace && level == 0
    {
      this.ctx := ctx;
      this.namespace := namespace;
      level := 0;
    }

    /** The level is unset or a rank. */
    predicate LevelValid()
      reads this
    {
      level == 0 || IsRank(level)
    }

    /** The logger is the one its context holds for its namespace. */
    ghost predicate Registered()
      reads this, ctx, ctx.registry.Values
    {
      ctx.Valid() && namespace in ctx.registry && ctx.registry[namespace] == this
    }

    /** The name of the logger's own level, or none while it defers to the global one. */
    function GetLevel(): (name: Option<string>)
      reads this
      ensures name.Some? <==> IsRank(level)
      ensures name.Some? ==> FromName(name.value) == FromRank(level)
    {
      match FromRank(level)
      case None => None
      case Some(l) => LookupRoundTrip(l); Some(l.Name())
    }

    /**
     * Sets the logger's own level by name; a falsy argument unsets it, and a
     * name that is not a level is rejected and changes nothing.
     */
    method SetLevel(levelName: Option<string>) returns (r: Outcome<LogError>)
      requires Registered()
      modifies this`level
      ensures Registered()
      ensures Falsy(levelName) ==> r == Pass && level == 0 && GetLevel().None?
      ensures !Falsy(levelName) && IsLevelName(levelName.value) ==>
                r == Pass && level == FromName(levelName.value).value.Rank() && GetLevel() == levelName
      ensures !Falsy(levelName) && !IsLevelName(levelName.value) ==>
                r == Fail(InvalidLogLevel(levelName)) && level == old(level)
    {
      if Falsy(levelName) {
        level := 0;
        assert FromRank(0).None? by {
          assert forall l: Level :: l.Rank() != 0;
        }
        return Pass;
      }
      if !IsLevelName(levelName.value) {
        return Fail(InvalidLogLevel(levelName));
      }
      var l := FromName(levelName.value).value;
      LookupRoundTrip(l);
      level := l.Rank();
      r := Pass;
    }

    /**
     * One call of the logging function for `severity`: nothing when the gate
     * drops it, otherwise one write to that level's console function with
     * the first line rewritten.
     */
    method Log(severity: Level, line: string) returns (w: Option<Write>)
      ensures w.Some? <==> Passes(severity.Rank(), level, ctx.global)
      ensures w.Some? ==> w.value == Write(StreamOf(severity), FormatLine(ctx.isNode, namespace, severity, line))
    {
      if level != 0 {
        if severity.Rank() < level {
          return None;
        }
      } else {
        if severity.Rank() < ctx.global {
          return None;
        }
      }
      w := Some(Write(StreamOf(severity), FormatLine(ctx.isNode, namespace, severity, line)));
    }

    /** The logger for the sub-namespace `namespace:sub`, made or found through the context. */
    method CreateLogger(sub: string) returns (child: Logger)
      requires Registered()
      modifies ctx`registry
      ensures Registered() && child.Registered()
      ensures child.namespace == namespace + ":" + sub && child != this
      ensures child.ctx == ctx
      ensures old(namespace + ":" + sub in ctx.registry) ==>
                child == old(ctx.registry[namespace + ":" + sub]) && ctx.registry == old(ctx.registry)
      ensures !old(namespace + ":" + sub in ctx.registry) ==>
                fresh(child) && child.level == 0 && ctx.registry == old(ctx.registry)[namespace + ":" + sub := child]
    {
      child := ctx.CreateLogger(namespace + ":" + sub);
    }
  }
}
