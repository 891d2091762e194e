# zapLog logger core in Dafny

This project models the core of the `logger` package of zapLog, a small wrapper around zap. The core is the code that turns a mutable configuration object into an installed logging pipeline. It has three parts, one Dafny module each:

- `Tools` (tools.dfy, from logger/tools.go): the level table `levelMap` and the lookup `getLevel`, which falls back to `info`. It also holds `getFileWriteSyncer`, which builds an abstract rotating-file descriptor.
- `Configuration` (config.dfy, from logger/config.go): the `Config` class with its fixed defaults and its setters.
  - The file block `fileOut` is a separate `FileOut` object reached through a reference.
  - The capture buffer `*[]string` is a separate `StringSlice` object held by reference. It can be replaced, read back, cleared and drained.
  - Each setter is specified by `Apply`, a function on the snapshot `ConfigValue`. A separate table, `Assignments`, lists the fields each setter writes. Lemmas prove that each setter writes exactly those fields, and from that: later setters overwrite earlier ones, setters are idempotent, and setters on disjoint fields commute.
- `Logging` (logger.dfy, from logger/logger.go): the zap logger is abstracted to a `Pipeline` value. It holds one encoder, a list of sinks (console or rotating file, each with a minimum level), the caller skip, the stack-trace threshold, the caller annotation and an optional name.
  - `Build` is the pipeline `ApplyConfig` builds from a snapshot.
  - `Logger.ApplyConfig` is the imperative form and is proved to install `Build(config.Value())`.
  - `Route` is how zap's tee hands a record to its cores: a record of level L reaches exactly the sinks whose minimum level is at most L.

Two client methods use only the contracts of the methods they call:
- `Configuration.DrainSharedBuffer` shows a caller that shares the capture buffer seeing it drained, with a second drain printing nothing.
- `Logging.Reconfigure` enables file output mid-stream. Nothing changes until `ApplyConfig` runs again; after that, the pipeline is the one `RebuildAddsFileSink` describes.

Points where the code, not a reader's expectation, is followed:
- `ApplyConfig` builds no sink for the capture buffer (`sliceOut`, `sliceOutSlice`) or for the custom writer (`output`). Those settings are stored but have no effect on the pipeline (`BuildIgnoresCaptureAndOutput`).
- `ApplyConfig` has no error path. An enabled file sink with an empty file name is built like any other.
- `DisableFileOut` ignores its argument and keeps the stored file name.

Go's `int` is modelled as the 64-bit `Int64`. No value is ever computed with, only stored and copied.

## Model

| member | source | states |
|---|---|---|
| `Tools.GetLevel` | logger/tools.go:20-25 | the result is the level whose name is exactly the argument, or `Info` when the argument is not a key of the table; total, never fails |
| `Tools.LevelMapKeys` | logger/tools.go:9-17 | the table's keys are exactly the seven level names |
| `Tools.GetLevelOfName` | logger/tools.go:9-22 | looking up each level's name yields that level (debug, info, warn, error, dpanic, panic, fatal) |
| `Tools.GetLevelExact` | logger/tools.go:20-25 | `GetLevel(s) == l` if and only if `s` is exactly the name of `l`, or `l` is `Info` and `s` is not a key |
| `Tools.GetLevelExamples` | logger/tools_test.go:19-28 | `""` gives Info and `"error"` gives Error, as the unit test checks; `"ERROR"` and `"Warn"` give Info, because matching is case-sensitive |
| `Tools.LevelsStrictlyIncrease` | logger/tools.go:9-17 | the seven levels, listed debug to fatal, cover every level and have strictly increasing zap codes -1 to 5 |
| `Tools.AtMostTotalOrder` | logger/tools.go:9-17 | the severity order used for filtering is a total order |
| `Tools.GetFileWriteSyncer` | logger/tools.go:40-49 | the rotating-file descriptor for a by-value copy of the file block; `FileWriteSyncerCopies` states that each of the five parameters arrives in the field of the same name |
| `Tools.FileWriteSyncerCopies` | logger/tools.go:40-49 | the rotating-file descriptor carries filename, maxSize, maxBackups, maxAge and compress unchanged: two file blocks give the same descriptor exactly when they differ at most in `enable` |
| `Configuration.SetterFrame` | logger/config.go:74-200 | every setter writes exactly the fields listed for it, with values that depend only on its argument, and leaves every other field unchanged |
| `Configuration.Extensional` | logger/config.go:25-47 | the listed fields make up the whole configuration state, so two snapshots that agree on every field are equal |
| `Configuration.SetterOverwrites` | logger/config.go:74-200 | a later setter that writes every field an earlier one wrote cancels the earlier one |
| `Configuration.SetterIdempotent` | logger/config.go:74-200 | calling a setter twice with the same argument has the same effect as calling it once |
| `Configuration.SettersCommute` | logger/config.go:74-200 | setters that write disjoint fields give the same state in either order |
| `Configuration.Defaults` | logger/config.go:50-71 | the `newConfig` settings as a value; `Config.constructor` is proved to produce it with a fresh buffer, and `DefaultPipeline` states what it builds |
| `Configuration.Apply` | logger/config.go:74-200 | the effect of each setter on the settings; `SetterFrame` proves each setter writes exactly the fields listed in `Assignments` and nothing else, and every setter method is proved to move its object from `Value()` to `Apply(Value(), s)` |
| `Configuration.DisableFileOutKeepsFilename` | logger/config.go:163-165 | `DisableFileOut` clears `enable`, keeps the stored file name, and gives the same result whatever its argument |
| `Configuration.Config.constructor` | logger/config.go:50-71 | `newConfig` defaults: log level "info", stacktrace level "panic", empty name, caller skip 1, JSON, console and slice output off, empty console level, a fresh empty buffer, no writer, and a fresh file block (disabled, "", 10, 5, 30, no compression) |
| `Configuration.Config.SetLogLevel` | logger/config.go:74-76 | the new state is the old one with `logLevel` replaced |
| `Configuration.Config.SetStacktraceLevel` | logger/config.go:79-81 | the new state is the old one with `stacktraceLevel` replaced |
| `Configuration.Config.SetLoggerName` | logger/config.go:84-86 | the new state is the old one with `loggerName` replaced |
| `Configuration.Config.SetCallerSkip` | logger/config.go:89-91 | the new state is the old one with `callerSkip` replaced |
| `Configuration.Config.EnableJSONFormat` | logger/config.go:94-96 | only `jsonFormat` changes, to true |
| `Configuration.Config.DisableJSONFormat` | logger/config.go:99-101 | only `jsonFormat` changes, to false |
| `Configuration.Config.EnableConsoleOut` | logger/config.go:104-106 | only `consoleOut` changes, to true |
| `Configuration.Config.DisableConsoleOut` | logger/config.go:109-111 | only `consoleOut` changes, to false |
| `Configuration.Config.SetConsoleLevel` | logger/config.go:114-116 | the new state is the old one with `consoleLevel` replaced |
| `Configuration.Config.ClearConsoleLevel` | logger/config.go:119-121 | only `consoleLevel` changes, back to "" |
| `Configuration.Config.EnableSliceOut` | logger/config.go:124-126 | only `sliceOut` changes, to true |
| `Configuration.Config.DisableSliceOut` | logger/config.go:129-131 | only `sliceOut` changes, to false |
| `Configuration.Config.SetSliceOutSlice` | logger/config.go:134-136 | only the buffer reference changes, to the given reference; the lines are not copied |
| `Configuration.Config.GetSliceOutSlice` | logger/config.go:139-141 | returns the stored reference itself, so after `SetSliceOutSlice(s)` it returns `s` |
| `Configuration.Config.ClearSliceOutSlice` | logger/config.go:144-146 | the shared buffer object is emptied in place, so every holder of the reference sees no lines; the settings, the reference included, are unchanged |
| `Configuration.Config.PrintSliceOutSlice` | logger/config.go:149-154 | the lines written are the buffer's lines in insertion order; the buffer is empty afterwards, so a second call with no writes in between writes nothing |
| `Configuration.Config.EnableFileOut` | logger/config.go:157-160 | only the file block's `enable` (to true) and `filename` (to the argument) change |
| `Configuration.Config.DisableFileOut` | logger/config.go:163-165 | only the file block's `enable` changes, to false; the argument is ignored |
| `Configuration.Config.SetFileOutMaxSize` | logger/config.go:168-170 | only the file block's `maxSize` changes |
| `Configuration.Config.SetFileOutMaxBackups` | logger/config.go:173-175 | only the file block's `maxBackups` changes |
| `Configuration.Config.SetFileOutMaxAge` | logger/config.go:178-180 | only the file block's `maxAge` changes |
| `Configuration.Config.EnableFileOutCompress` | logger/config.go:183-185 | only the file block's `compress` changes, to true |
| `Configuration.Config.DisableFileOutCompress` | logger/config.go:188-190 | only the file block's `compress` changes, to false |
| `Configuration.Config.SetOutput` | logger/config.go:193-195 | only the writer reference changes |
| `Configuration.Config.ClearOutput` | logger/config.go:198-200 | only the writer reference changes, to nil |
| `Logging.Route` | logger/logger.go:60-62 | the sinks a record reaches are among the pipeline's sinks, each admitting the record's level, and are no more than the sinks |
| `Logging.RouteExactly` | logger/logger.go:60-62 | a record of level L reaches a sink if and only if the sink belongs to the pipeline and its minimum level is at most L |
| `Logging.RouteAll` | logger/logger.go:60-62 | when every sink admits the level, the record reaches all of them in their order |
| `Logging.RouteMonotonic` | logger/logger.go:60-62 | a more severe record reaches every sink a less severe one reaches |
| `Logging.Stacktraced` | logger/logger.go:66 | a record carries a stack trace when its level is at least the pipeline's threshold; `BuildMetadata` and `DefaultPipeline` state for which levels that holds |
| `Logging.BuildEncoder` | logger/logger.go:31-38 | the encoder is JSON if and only if `jsonFormat`, otherwise console |
| `Logging.BuildSinks` | logger/logger.go:29-57 | there are at most two sinks, one per enabled output; the console sink is present if and only if `consoleOut` and comes first; the file sink is present if and only if `fileOut.enable` and comes last; with neither enabled the list is empty |
| `Logging.BuildLevels` | logger/logger.go:41-57 | the console's level is `getLevel(consoleLevel)` when `consoleLevel` is not empty, else `getLevel(logLevel)`; the file's level is `getLevel(logLevel)`, and its writer is the descriptor of the by-value copy of the file block |
| `Logging.ClearConsoleLevelFollowsDefault` | logger/config.go:119-121 | after `ClearConsoleLevel` the console's level is the default level again |
| `Logging.SelectEncoder` | logger/logger.go:31-38 | the encoder choice; `BuildEncoder` states JSON if and only if `jsonFormat`, otherwise console |
| `Logging.ConsoleLevelName` | logger/logger.go:42-45 | the console's level name, `consoleLevel` when it is not "" and `logLevel` otherwise; stated by `BuildLevels` and `ClearConsoleLevelFollowsDefault` |
| `Logging.ConsoleSink` | logger/logger.go:41-50 | the console core, writing to standard output at the console level; `BuildSinks`, `BuildLevels` and `BuildRouting` state where it appears and what it admits |
| `Logging.FileSink` | logger/logger.go:53-57 | the file core, writing to the descriptor of the file block at the default level; `BuildSinks`, `BuildLevels` and `BuildRouting` state where it appears and what it admits |
| `Logging.Build` | logger/logger.go:27-74 | the pipeline `ApplyConfig` installs; its properties are `BuildEncoder`, `BuildSinks`, `BuildLevels`, `BuildMetadata`, `BuildIgnoresCaptureAndOutput` and `BuildRouting`, and `Logger.ApplyConfig` is proved to install it |
| `Logging.BuildMetadata` | logger/logger.go:60-74 | the caller skip is `callerSkip`; the stack-trace threshold is `getLevel(stacktraceLevel)`, so a record carries a trace exactly from that level up; the caller annotation is always on; a name is attached if and only if `loggerName` is not "", and it is `loggerName` |
| `Logging.BuildIgnoresCaptureAndOutput` | logger/logger.go:29-57 | the pipeline does not depend on `sliceOut`, the buffer or the custom writer |
| `Logging.CaptureSettersDoNotAffectPipeline` | logger/logger.go:27-80 | the slice-output and writer setters never change the pipeline that would be built |
| `Logging.BuildRouting` | logger/logger.go:41-62 | a record of level L reaches the console if and only if console output is on and the effective console level is at most L; it reaches the file if and only if file output is on and the default level is at most L; it reaches no other sink |
| `Logging.DefaultPipeline` | logger/logger.go:17-24 | the default settings build a pipeline with no sinks, console encoding, caller skip 1, no name, and stack traces for panic and fatal only |
| `Logging.WarnConsoleFilters` | logger/logger.go:41-50 | with only the console on at level "warn", an info record reaches nothing and a warn record reaches exactly the console |
| `Logging.RebuildAddsFileSink` | logger/logger.go:27-57 | starting from the defaults with the console on, an info record reaches the console alone; after file output is also enabled and the pipeline rebuilt, it reaches the console and then the file |
| `Logging.Logger.New` | logger/logger.go:17-24 | a new logger holds fresh default settings and has them applied: zero sinks, console encoding |
| `Logging.Logger.ApplyConfig` | logger/logger.go:27-80 | installs `Build` of the current settings; only the logger's active pipeline changes, never the settings, so later setting changes take effect only at the next call |

## Left out

- Encoding and rendering of records, and `getEncoderConfig` (logger/tools.go:28-37): these configure the zap library. The encoder is a two-valued tag.
- Lumberjack rotation, compression and file I/O, `zapcore.AddSync` and `zapcore.Lock(os.Stdout)`: these are I/O and locking done by libraries. The file sink is the descriptor `RotatingFile`, and the console sink is the tag `Stdout`.
- `logger.Sync()` in `ApplyConfig` and flushing in general: flushing happens inside zap.
- The panic and exit behaviour of Panic and Fatal records, and dpanic's development mode: this happens inside zap, and the repository never turns development mode on.
- The leveled methods `Debug` through `Fatalln` (logger/logger.go:82-199 and log.go:44-161): they only delegate to the installed zap logger.
- The package-level logger and `init` in log.go: start-up global state.
- Configuration.Config.PrintSliceOutSlice: it does not call `fmt.Print`. It returns the sequence of strings written to standard output, one per write.
- Configuration.Config.ClearSliceOutSlice: it requires a buffer reference that is not nil. With a nil buffer the Go code dereferences a nil pointer and panics, and that panic is not modelled. The same holds for `PrintSliceOutSlice`.
- Settings built other than by `newConfig` and `New`: `Config`, `FileOut` and `Logger.config` are non-null references here, so every settings object has a file block and every logger has settings. In Go, `Logger.Config` and the `Config` type are exported, so a client can write `&Logger{}` or `&Logger{Config: &Config{}}`. Then `ApplyConfig` dereferences a nil `Config` (logger/logger.go:32) or a nil `fileOut` (logger/logger.go:53), and the file setters dereference the nil `fileOut` (logger/config.go:158-189). Those nil-pointer panics are not modelled.
- Concurrency: nothing here is concurrent. This includes unsynchronised writes to the shared buffer and a rebuild racing with log calls.
- Go's 32-bit `int` on 32-bit platforms: `Int64` assumes a 64-bit platform.
