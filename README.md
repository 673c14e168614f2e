# debug-levels, modelled in Dafny

debug-levels is a thin leveled-logging layer over the `debug` package. It
works with the six Bunyan severities:

| name | rank |
|---|---|
| fatal | 60 |
| error | 50 |
| warn | 40 |
| info | 30 |
| debug | 20 |
| trace | 10 |

The factory hands out one logger per namespace and keeps them in a
registry. Each logger has one logging function per severity.

Whether a call is written depends on two thresholds:

- **Global threshold.** A process-wide rank, read at start-up from a stored
  setting (falling back to `info`). The global `setLevel` changes it.
- **Logger level.** Each logger's own level. It is 0 until set, and 0 means
  "follow the global threshold".

A call below the applicable threshold is dropped. Any other call goes to a
fixed console function for its severity:

- fatal and error go to `error`;
- warn goes to `warn`;
- info goes to `log`;
- debug and trace go to `debug`.

Before writing, the call's first line is rewritten to carry the severity
label. The shape of the rewrite depends on the host:

- **Node-like host, line starts with the namespace:** the padded upper-case
  label is put in front, after two blanks.
- **Node-like host, any other line:** the line is taken to start with a
  timestamp, and `" " + NAME` is inserted at the first space.
- **Other hosts:** the line is preceded by the padded label and a blank.

## Modules

- `Wrappers`: `Option`, `Result` and `Outcome`, which model a value that may
  be missing and the exceptions the library throws.
- `Folds`: the map a sequence of key/value stores leaves behind. It models
  assigning into a JavaScript object in a loop.
- `Levels`: the severity table, the lookups by name and by rank, and the pad
  width.
- `Labels`: the upper-cased, padded labels, and the start-up loop that fills
  the rank-to-name map and both label maps.
- `Gate`: the stream each severity routes to, and the threshold test. It
  also holds the test suite's 6×6 matrix of expected console call counts.
- `Format`: the rewrite of the first line.
- `DebugLevels`: the module state as a `LoggingContext` class. It holds the
  host kind, the global threshold and the registry, and the global
  `setLevel`, `getLevel`, `levelEnabled` and `createLogger`. Each logger is
  a `Logger` object with its own mutable `level`.
- `Scenarios`: the test suite's cases replayed as methods on fresh state.

## Behaviour worth knowing

- **Global `setLevel` has no reset.** A logger's own `setLevel` clears its
  level on a falsy argument (src/index.js:98-102). The global `setLevel`
  has no such branch: `undefined in logLevelsByName` is false, so it throws
  (src/index.js:195). In the model, `None` gives
  `Fail(InvalidLogLevel(None))`.
- **A rank written as a string.** `levelEnabled` accepts a rank written as
  a string, such as `"30"`, because it is a key of the rank map. It then
  compares the threshold against `undefined`, which is false. The model
  returns `Success(false)` for such an argument.
- **No space in a timestamped line.** On a Node-like host, a line that
  neither starts with the namespace nor holds a space still gets the
  `substr` arithmetic for index -1. The model keeps that case:
  `Format.NoSpaceKeepsLastChar` states what comes out.

## Model

| member | source | states |
|---|---|---|
| Levels.Names | src/index.js:17-24 | The table's keys in declaration order are the six level names, position by position. |
| Levels.AllLevels | src/index.js:17-24 | The table lists every severity, and none twice. |
| Levels.TableIsBijective | src/index.js:17-24 | Each rank and each name belongs to exactly one severity, and trace < debug < info < warn < error < fatal. |
| Levels.FindName | src/index.js:104 | A name search over a list finds a member of the list with that name, or reports that no member has it. |
| Levels.FindRank | src/index.js:212 | A rank search over a list finds a member of the list with that rank, or reports that no member has it. |
| Levels.FromName | src/index.js:104 | `name in logLevelsByName`: the level found has that name, and when none is found no level has it. |
| Levels.FromRank | src/index.js:96 | `logLevelsByNum[rank]`: the level found has that rank, and when none is found no level has it. |
| Levels.LookupRoundTrip | src/index.js:46-47 | Looking up a level's name, or its rank, gives that level back. |
| Levels.MaxNameLength | src/index.js:40-45 | The pad width is at least every name's length, and is the length of some name. |
| Levels.PadLengthIsFive | src/index.js:40-45 | The pad width is 5, and no name is longer. |
| Levels.PadLength | src/index.js:40-45 | The pad width, the longest name's length. It has no contract of its own; `Levels.MaxNameLength` and `Levels.PadLengthIsFive` state its value. |
| Labels.PadTo | src/index.js:49-53 | Blanks up to the width, then the upper-cased name. It has no contract of its own; `Labels.PadToShape` states its length and contents. |
| Labels.Padded | src/index.js:55-56 | A level's label. It has no contract of its own; `Labels.LabelShape` states its shape. |
| Labels.Spaces | src/index.js:49-52 | The padding is exactly n characters, all blanks. |
| Labels.Upper | src/index.js:53 | Upper-casing keeps the length. |
| Labels.UpperNames | src/index.js:53 | The upper-cased names are FATAL, ERROR, WARN, INFO, DEBUG and TRACE. |
| Labels.TrimStart | test/debug-levels.spec.js:68 | Stripping the leading blanks (U+0020) leaves a string that is empty or starts with a non-blank. A string of blanks followed by NAME therefore matches `/^\s*NAME/`. |
| Labels.TrimStartSpaces | test/debug-levels.spec.js:68 | Stripping the leading blanks removes any run of leading blanks. |
| Labels.PadToShape | src/index.js:49-53 | A name no wider than the pad width, padded, is exactly that wide, and stripping its blanks leaves the upper-case name. |
| Labels.LabelShape | src/index.js:40-57 | Every label is five characters: blanks followed by the upper-case name, which starts with a non-blank. |
| Labels.PadName | src/index.js:49-53 | The inner loop builds the blanks up to the pad width, followed by the upper-cased name. |
| Labels.PairKeysDistinct | src/index.js:46-57 | The three maps never store to the same key twice. |
| Labels.RankNameTable | src/index.js:47 | After the loop, the rank map's keys are exactly the six ranks, and each rank maps to its name. |
| Labels.NameLabelTable | src/index.js:55 | After the loop, the name-to-label map's keys are exactly the six names, and each maps to its padded label. |
| Labels.RankLabelTable | src/index.js:56 | After the loop, the rank-to-label map's keys are exactly the six ranks, and each maps to its padded label. |
| Labels.FillTables | src/index.js:46-57 | The table loop leaves the three maps holding what the stores of each level, in order, leave behind. |
| Labels.BuildTables | src/index.js:36-57 | The start-up maps: rank to name, name to label and rank to label, each over exactly the six keys. |
| Gate.StreamOf | src/index.js:72-81 | The console function of a severity: `error` exactly for error and above, `warn` exactly for warn, `log` exactly for info, and `debug` exactly for debug and below. |
| Gate.Passes | src/index.js:153-164 | The threshold test. It has no contract of its own; `Gate.GateOrder` states which calls it lets through. |
| Gate.GateMatchesExpectedCalls | test/debug-levels.spec.js:111-182 | For every global level and every logging function, the calls to error, warn, log and debug are the suite's expected counts. |
| Gate.GateOrder | src/index.js:153-164 | With no logger level, a call passes exactly when its severity is at or above the global one. With a logger level, the global threshold plays no part. |
| Format.StartsWith | src/index.js:133 | `substring(0, prefix.length) === prefix`. It has no contract of its own; `Format.LabelFirst` and `Format.InsertAfterTimestamp` take it as the branch condition. |
| Format.SubstrPrefix | src/index.js:141 | `substr(0, n)` is a prefix of the string, of length n clamped to between 0 and the string's length. |
| Format.SubstrFrom | src/index.js:144 | `substr(start)` is a suffix of the string. A non-negative start drops that many characters, and a negative start keeps that many from the end, clamped to the whole string. |
| Format.Decorate | src/index.js:127-148 | The rewrite of the first line, for any label and name. It has no contract of its own; `Format.DecorateLabelFirst`, `Format.DecorateAfterTimestamp` and `Format.DecorateNoSpace` state what it gives in each branch. |
| Format.FormatLine | src/index.js:127-148 | The rewrite for a severity's own label and name. It has no contract of its own; `Format.LabelFirst`, `Format.InsertAfterTimestamp` and `Format.NoSpaceKeepsLastChar` state what it gives in each branch. |
| Format.IndexOf | src/index.js:139 | `indexOf(" ")`: -1 exactly when there is no space, otherwise the position of the first space. |
| Format.LabelParts | src/index.js:136 | A label is blanks followed by the upper-case name, five characters in all. |
| Format.TrimLabelled | src/index.js:136 | Blanks, then a label, then the line: stripping the leading blanks leaves the label's name followed by the line. |
| Format.DecorateLabelFirst | src/index.js:133-147 | When the label (blanks, then the name) goes in front, stripping the blanks leaves the name, then (off a Node-like host) one blank, then the unchanged line. The output's length is 2 on a Node-like host, and 1 elsewhere, plus the lengths of the blanks, the name and the line, and the line starts right after the label. |
| Format.LabelFirst | src/index.js:133-147 | When a Node-like host writes a line starting with the namespace, or a non-Node host writes any line, the output starts with blanks then the upper-case level name, and ends with the line unchanged, 7 characters in on a Node-like host and 6 elsewhere. |
| Format.DecorateAfterTimestamp | src/index.js:137-144 | For a line with a space, the output is the text before the first space, then " " and the name, then the rest. Removing the inserted part gives the line back. |
| Format.InsertAfterTimestamp | src/index.js:137-144 | On a Node-like host, a line that has a space and does not start with the namespace gets " NAME" inserted just before its first space, and nothing else changes. |
| Format.DecorateNoSpace | src/index.js:139-144 | On a Node-like host, for a line that does not start with the namespace and holds no space, the output is " " and the name, followed by the line's last character if it has one. |
| Format.NoSpaceKeepsLastChar | src/index.js:139-144 | On a Node-like host, a line that has no space and does not start with the namespace comes out as " NAME" plus its last character. |
| DebugLevels.Join | src/index.js:109 | `Array.prototype.join`. It has no contract of its own; `DebugLevels.JoinSnoc` states how it grows. |
| DebugLevels.JoinSnoc | src/index.js:109 | Joining a non-empty list with one more item appends the separator and that item to the join of the list. |
| DebugLevels.NamesJoinedBy | src/index.js:109 | Joining the table's keys with a separator gives the six names in table order with the separator between neighbours. |
| DebugLevels.Message | src/index.js:105-110 | The text of each error. It has no contract of its own; `DebugLevels.InvalidLevelMessage` states the invalid-level text. |
| DebugLevels.InvalidLevelMessage | src/index.js:105-110 | The error message names the rejected value and lists the six names in table order. |
| DebugLevels.Falsy | src/index.js:99 | `!levelName` for a string argument: missing or empty. It has no contract of its own. |
| DebugLevels.Decimal | src/index.js:47 | `String(rank)`: a non-empty string of decimal digits. |
| DebugLevels.IsRankKey | src/index.js:221 | A key of the rank-to-name map, which is a rank's decimal string. It has no contract of its own; `DebugLevels.RankKeyIsNoName` relates it to the name keys. |
| DebugLevels.RankKeyIsNoName | src/index.js:221 | No rank key is also a level name, since one starts with a digit and the other with a letter. |
| DebugLevels.Known | src/index.js:221 | Whether the argument is a name key or a rank key. It has no contract of its own; `DebugLevels.LoggingContext.LevelEnabled` states that it is the error condition. |
| DebugLevels.InitialLevel | src/index.js:276-296 | The start-up threshold is a rank. It is the stored name's rank when that is a level name, and info's rank when the setting is missing, empty or not a level name. |
| DebugLevels.LoggingContext.constructor | src/index.js:29-33 | Loading the module sets the threshold from the stored setting, with an empty registry. |
| DebugLevels.LoggingContext.GetLevel | src/index.js:211-213 | The global level's name exists exactly when the threshold is a rank, and it names that rank. |
| DebugLevels.LoggingContext.SetLevel | src/index.js:194-205 | It succeeds exactly for a level name, and then the threshold is that name's rank and `getLevel` returns the name. In the model every other argument, including no argument, is rejected with the invalid-level error, and the threshold is unchanged (inherited keys are listed under Left out). |
| DebugLevels.LoggingContext.LevelEnabled | src/index.js:220-232 | It is an error exactly when the argument is neither a name key nor a rank key. For a level given by name or by number, it is the gate with no logger level. A rank written as a string gives false. |
| DebugLevels.LoggingContext.CreateLogger | src/index.js:64-122 | A registered namespace gives back the stored logger, with the registry unchanged. A new namespace gives a fresh logger with level 0, and the registry gains exactly that entry. |
| DebugLevels.Logger.constructor | src/index.js:69 | A new logger starts with level 0, meaning that it follows the global threshold. |
| DebugLevels.Logger.GetLevel | src/index.js:95-97 | The logger's level name exists exactly when its level is a rank, and it names that rank; there is none at level 0. |
| DebugLevels.Logger.SetLevel | src/index.js:98-114 | A falsy argument clears the level to 0. A level name sets the level to its rank, and `getLevel` returns the name. In the model every other name is rejected with the invalid-level error, and the level is unchanged (inherited keys are listed under Left out). |
| DebugLevels.Logger.Log | src/index.js:124-164 | A call is written exactly when it passes the gate. Then it is written to its severity's console function, with the first line rewritten. |
| DebugLevels.Logger.CreateLogger | src/index.js:83-85 | The child's namespace is the parent's, then ":", then the sub-name. It comes from the same registry, is a different logger, and starts at level 0 when new. |
| Scenarios.Setup | test/debug-levels.spec.js:10-26 | The suite's set-up leaves the global level at info, "testingnamespace" and its child "testingnamespace:child" registered, and both loggers at level 0. |
| Scenarios.ConsoleCall | test/debug-levels.spec.js:19-25 | What the suite's fake console sees of one call: it is called exactly when the call passes the gate, and then with the severity's function. |
| Scenarios.SetNewLevels | test/debug-levels.spec.js:44-57 | Under global fatal and then under error, `logger.fatal` reaches the error function each time. |
| Scenarios.PrefixWithLevel | test/debug-levels.spec.js:63-109 | At each level, a call of that level writes to its stream a line that starts with blanks and then the upper-case level name. This holds for a line that starts with the logger's namespace on a Node-like host, and for any line on other hosts. |
| Scenarios.CallCounts | test/debug-levels.spec.js:111-182 | Each cell of the suite's call-count matrix is what one logger call produces. |
| Scenarios.ChildFollowsGlobal | test/debug-levels.spec.js:184-188 | A child with no level of its own drops every call below info under global info, trace among them. |
| Scenarios.ChildOwnLevel | test/debug-levels.spec.js:190-195 | Once the child's own level is set, a call of that level reaches its console function; for trace that is the debug function. |
| Scenarios.ParentLevelLeavesChild | src/index.js:98-114 | After the parent's `setLevel`, the parent's level is the new rank and the child's level is still 0. Under global info, a call the parent's new level drops still reaches the console through the child. |
| Scenarios.SameNamespaceSameLogger | src/index.js:65-67 | Asking again for a registered namespace gives back the same logger. |
| Scenarios.LevelEnabledAtInfo | test/debug-levels.spec.js:197-215 | Under global info, `levelEnabled` holds exactly for info and above: it is false for debug and true for info and fatal. |

## Left out

- The `debug` package is not part of this model. That covers creating a
  channel for a namespace, namespace glob enabling, and the
  `enable`/`disable`/`enabled` forwarders (src/index.js:248-269). It also
  covers what `debug` does to the arguments before `debugFn.log` sees them.
  A call that passes the gate is modelled as one write of the rewritten line.
- Console output itself (src/index.js:150): only the chosen console function
  and the rewritten first argument are modelled.
- Host detection (src/index.js:4-14) is a constructor parameter `isNode`.
- Reading the stored level from `process.env.DEBUG_LEVEL` or
  `localStorage` (src/index.js:280-295) happens outside the model.
  - The value read is a parameter.
  - A read that throws is the same as a missing value (`None`).
  - The bootstrap log line of the `catch` branch is not modelled.
- On non-Node hosts, the argument copy that puts `""` in front
  (src/index.js:172-179) is not modelled. It only feeds the `debug` package.
- Arguments after the first are not modelled. Only the first one is
  rewritten, and the rest are passed through untouched.
- `Object.defineProperty` accessors and the `.logger` self-reference
  (src/index.js:87-94, 118, 235-242) are not modelled separately. The
  `level` getter and setter are the `GetLevel` and `SetLevel` methods.
- `logger(...)` is the same function as `logger.info(...)`
  (src/index.js:72, 79), which is `Log(Info, …)`.
- The per-severity closures of `_createLevelLogger` (src/index.js:72-81) are
  not modelled one by one. `Logger.Log` takes the severity as an argument,
  and `Gate.StreamOf` is the severity-to-function routing.
- Levels.MaxNameLength: the pad width is the numeric maximum of the name
  lengths. The source sorts the lengths as strings (src/index.js:44), which
  gives the same result while every length has one digit.
- DebugLevels.Falsy: of JavaScript's falsy values, only a missing argument
  and the empty string are modelled. Other values passed to `setLevel`
  (numbers or objects) are not modelled, since arguments are strings.
- DebugLevels.Message: `null` and `undefined` both print as "undefined". In
  the source, `null` prints as "null".
- DebugLevels.LoggingContext.LevelEnabled: number arguments are integers.
  Keys inherited from `Object.prototype` (such as "toString"), which pass
  JavaScript's `in` test, are not modelled.
- src/index.d.ts is not part of this model. It holds type declarations only.
- DebugLevels.InitialLevel: a stored setting that names a key inherited from
  `Object.prototype`, such as "toString", passes the `in` test
  (src/index.js:287). The source then starts with a threshold that is not a
  rank; the model starts at info.
- DebugLevels.LoggingContext.SetLevel: an inherited key such as "toString"
  passes the `in` test (src/index.js:195). The source then stores a
  non-number as the threshold (src/index.js:204), after which every call
  with no logger level passes the gate. The model rejects such a name.
- DebugLevels.Logger.SetLevel: the same holds for a logger's own level
  (src/index.js:104, 113). The model rejects an inherited key.
- DebugLevels.LoggingContext.CreateLogger: a namespace that is an inherited
  key, such as "constructor", passes the `in` test (src/index.js:65), so the
  source returns `Object` and registers nothing. The model creates and
  registers a new logger for it.
- Format.DecorateNoSpace: JavaScript strings are sequences of UTF-16 code
  units, and `substr(-1)` takes one code unit. For a line that ends in a
  character outside the Basic Multilingual Plane the source keeps a lone
  surrogate. A Dafny `char` is a whole character, so the model keeps the
  whole last character.
- Format.NoSpaceKeepsLastChar: the same UTF-16 difference as for
  `Format.DecorateNoSpace`.
