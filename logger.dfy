/**
 * The logger and the pipeline it builds from its settings (logger/logger.go).
 *
 * The zap objects are abstracted to the `Pipeline` datatype: one encoder,
 * a list of sinks each with its own minimum level, and the metadata policy
 * (caller skip, stack-trace threshold, caller annotation, optional name).
 * `Build` is the pipeline `ApplyConfig` constructs from a settings snapshot;
 * `Route` is how zap's tee of cores hands a record to the sinks.
 */
module Logging {
  import opened Configuration
  import opened Tools

  datatype Option<T> = None | Some(value: T)

  /**
   * `zapcore.NewJSONEncoder` or `zapcore.NewConsoleEncoder`, both over the
   * same encoder configuration (ISO-8601 times, capital level names).
   */
  datatype Encoder = JSONEncoder | ConsoleEncoder

  /** Where a core writes: the locked standard output, or a rotating file. */
  datatype SinkKind = Stdout | RotatingFileSink(file: RotatingFile)

  /** One core: a destination and the least level it accepts. */
  datatype Sink = Sink(kind: SinkKind, minLevel: Level)

  /** The installed `*zap.SugaredLogger`, as far as its behaviour is decided here. */
  datatype Pipeline = Pipeline(
    encoder: Encoder,
    sinks: seq<Sink>,
    callerSkip: Int64,
    stacktraceLevel: Level,
    addCaller: bool,
    name: Option<string>)

  // ---------------------------------------------------------------------
  // The decisions ApplyConfig makes
  // ---------------------------------------------------------------------

  function SelectEncoder(jsonFormat: bool): Encoder
  {
    if jsonFormat then JSONEncoder else ConsoleEncoder
  }

  /** The console's level name: its own when set, otherwise the default level. */
  function ConsoleLevelName(c: ConfigValue): string
  {
    if c.consoleLevel != "" then c.consoleLevel else c.logLevel
  }

  /** The console core `ApplyConfig` adds when console output is on. */
  function ConsoleSink(c: ConfigValue): Sink
  {
    Sink(Stdout, GetLevel(ConsoleLevelName(c)))
  }

  /** The file core `ApplyConfig` adds when file output is on. */
  function FileSink(c: ConfigValue): Sink
  {
    Sink(RotatingFileSink(GetFileWriteSyncer(c.fileOut)), GetLevel(c.logLevel))
  }

  /** The pipeline `ApplyConfig` installs for the settings `c`. */
  function Build(c: ConfigValue): Pipeline
  {
    var console := if c.consoleOut then [ConsoleSink(c)] else [];
    var file := if c.fileOut.enable then [FileSink(c)] else [];
    Pipeline(
      SelectEncoder(c.jsonFormat),
      console + file,
      c.callerSkip,
      GetLevel(c.stacktraceLevel),
      true,
      if c.loggerName != "" then Some(c.loggerName) else None)
  }

  // ---------------------------------------------------------------------
  // Dispatch of one record
  // ---------------------------------------------------------------------

  /** The sinks, in order, that accept a record of the given level. */
  function Route(sinks: seq<Sink>, level: Level): (r: seq<Sink>)
    ensures |r| <= |sinks|
    ensures forall s :: s in r ==> s in sinks && AtMost(s.minLevel, level)
  {
    if sinks == [] then []
    else
      var rest := Route(sinks[1..], level);
      if AtMost(sinks[0].minLevel, level) then [sinks[0]] + rest else rest
  }

  /** Whether a record of the given level carries a stack trace. */
  predicate Stacktraced(p: Pipeline, level: Level)
  {
    AtMost(p.stacktraceLevel, level)
  }

  /** A record reaches exactly the sinks whose minimum level is at most its own. */
  lemma {:induction false} RouteExactly(sinks: seq<Sink>, level: Level, s: Sink)
    ensures s in Route(sinks, level) <==> s in sinks && AtMost(s.minLevel, level)
  {
    if sinks != [] {
      RouteExactly(sinks[1..], level, s);
      assert sinks == [sinks[0]] + sinks[1..];
    }
  }

  /** When every sink accepts the level, the record reaches all of them, in order. */
  lemma {:induction false} RouteAll(sinks: seq<Sink>, level: Level)
    requires forall i :: 0 <= i < |sinks| ==> AtMost(sinks[i].minLevel, level)
    ensures Route(sinks, level) == sinks
  {
    if sinks != [] {
      RouteAll(sinks[1..], level);
    }
  }

  /** A more severe record reaches every sink a less severe one reaches. */
  lemma RouteMonotonic(sinks: seq<Sink>, low: Level, high: Level, s: Sink)
    requires AtMost(low, high)
    ensures s in Route(sinks, low) ==> s in Route(sinks, high)
  {
    RouteExactly(sinks, low, s);
    RouteExactly(sinks, high, s);
  }

  // ---------------------------------------------------------------------
  // What Build decides
  // ---------------------------------------------------------------------

  /** The encoder is JSON exactly when JSON format is on. */
  lemma BuildEncoder(c: ConfigValue)
    ensures Build(c).encoder == JSONEncoder <==> c.jsonFormat
    ensures Build(c).encoder == ConsoleEncoder <==> !c.jsonFormat
  {
  }

  /**
   * At most one console core and one file core, the console core first;
   * each is present exactly when its output is enabled.
   */
  lemma BuildSinks(c: ConfigValue)
    ensures |Build(c).sinks| == (if c.consoleOut then 1 else 0) + (if c.fileOut.enable then 1 else 0)
    ensures |Build(c).sinks| <= 2
    ensures ConsoleSink(c) in Build(c).sinks <==> c.consoleOut
    ensures FileSink(c) in Build(c).sinks <==> c.fileOut.enable
    ensures forall s :: s in Build(c).sinks ==> s == ConsoleSink(c) || s == FileSink(c)
    ensures c.consoleOut ==> Build(c).sinks[0] == ConsoleSink(c)
    ensures c.fileOut.enable ==> Build(c).sinks[|Build(c).sinks| - 1] == FileSink(c)
    ensures !c.consoleOut && !c.fileOut.enable ==> Build(c).sinks == []
  {
  }

  /**
   * The console level is the console's own level when one is set, and the
   * default level otherwise; the file's level is always the default level.
   */
  lemma BuildLevels(c: ConfigValue)
    ensures c.consoleLevel != "" ==> ConsoleSink(c).minLevel == GetLevel(c.consoleLevel)
    ensures c.consoleLevel == "" ==> ConsoleSink(c).minLevel == GetLevel(c.logLevel)
    ensures FileSink(c).minLevel == GetLevel(c.logLevel)
    ensures FileSink(c).kind.file == GetFileWriteSyncer(c.fileOut)
  {
  }

  /** After `ClearConsoleLevel` the console follows the default level again. */
  lemma ClearConsoleLevelFollowsDefault(c: ConfigValue)
    ensures ConsoleSink(Apply(c, ClearConsoleLevel)).minLevel == GetLevel(c.logLevel)
  {
  }

  /** Caller skip, stack-trace threshold, caller annotation and name. */
  lemma BuildMetadata(c: ConfigValue)
    ensures Build(c).callerSkip == c.callerSkip
    ensures Build(c).stacktraceLevel == GetLevel(c.stacktraceLevel)
    ensures forall l :: Stacktraced(Build(c), l) <==> AtMost(GetLevel(c.stacktraceLevel), l)
    ensures Build(c).addCaller
    ensures Build(c).name.Some? <==> c.loggerName != ""
    ensures Build(c).name.Some? ==> Build(c).name.value == c.loggerName
  {
  }

  /**
   * The capture-buffer switch, the buffer and the custom writer are stored
   * but never turned into a sink: they do not influence the pipeline.
   */
  lemma BuildIgnoresCaptureAndOutput(c: ConfigValue, sliceOut: bool, buffer: StringSlice?, writer: Writer?)
    ensures Build(c.(sliceOut := sliceOut, sliceOutSlice := buffer, output := writer)) == Build(c)
  {
  }

  /** None of the setters of the capture buffer or the custom writer changes the pipeline. */
  lemma CaptureSettersDoNotAffectPipeline(c: ConfigValue, s: Setter)
    requires s.EnableSliceOut? || s.DisableSliceOut? || s.SetSliceOutSlice? || s.SetOutput? || s.ClearOutput?
    ensures Build(Apply(c, s)) == Build(c)
  {
    var d := Apply(c, s);
    BuildIgnoresCaptureAndOutput(c, d.sliceOut, d.sliceOutSlice, d.output);
  }

  /**
   * End to end: a record of level `level` reaches the console exactly when
   * console output is on and the console level admits it, reaches the file
   * exactly when file output is on and the default level admits it, and
   * reaches nothing else.
   */
  lemma BuildRouting(c: ConfigValue, level: Level)
    ensures ConsoleSink(c) in Route(Build(c).sinks, level)
            <==> c.consoleOut && AtMost(GetLevel(ConsoleLevelName(c)), level)
    ensures FileSink(c) in Route(Build(c).sinks, level)
            <==> c.fileOut.enable && AtMost(GetLevel(c.logLevel), level)
    ensures forall s :: s in Route(Build(c).sinks, level) ==> s == ConsoleSink(c) || s == FileSink(c)
  {
    BuildSinks(c);
    RouteExactly(Build(c).sinks, level, ConsoleSink(c));
    RouteExactly(Build(c).sinks, level, FileSink(c));
  }

  /** The defaults build a pipeline with no sinks, console encoding and the default metadata. */
  lemma DefaultPipeline(buffer: StringSlice)
    ensures Build(Defaults(buffer)) == Pipeline(ConsoleEncoder, [], 1, Panic, true, None)
    ensures forall l :: Stacktraced(Build(Defaults(buffer)), l) <==> l == Panic || l == Fatal
  {
    forall l
      ensures Stacktraced(Build(Defaults(buffer)), l) <==> l == Panic || l == Fatal
    {
      match l
      case Panic =>
      case Fatal =>
      case _ =>
    }
  }

  /**
   * With only the console on at level "warn", an info record reaches no
   * sink and a warn record reaches the console alone.
   */
  lemma WarnConsoleFilters(c: ConfigValue)
    requires c.consoleOut && !c.fileOut.enable && c.consoleLevel == "warn"
    ensures Route(Build(c).sinks, Info) == []
    ensures Route(Build(c).sinks, Warn) == [Sink(Stdout, Warn)]
  {
    assert Build(c).sinks == [Sink(Stdout, Warn)];
  }

  // ---------------------------------------------------------------------
  // The logger object
  // ---------------------------------------------------------------------

  class Logger {
    var config: Config
    var active: Pipeline

    /** `New`: the default settings, already applied. */
    constructor New()
      ensures fresh(config) && fresh(config.fileOut)
      ensures config.sliceOutSlice != null && fresh(config.sliceOutSlice)
      ensures config.sliceOutSlice.lines == []
      ensures config.Value() == Defaults(config.sliceOutSlice)
      ensures active == Build(config.Value())
      ensures active.sinks == [] && active.encoder == ConsoleEncoder
    {
      config := new Config();
      new;
      ApplyConfig();
      DefaultPipeline(config.sliceOutSlice);
    }

    /**
     * Builds the pipeline for the current settings and installs it. The
     * settings are only read; later changes to them have no effect until
     * the next call.
     */
    method ApplyConfig()
      modifies this`active
      ensures active == Build(config.Value())
    {
      var conf := config;
      ghost var settings := conf.Value();
      var cores: seq<Sink> := [];

      var encoder: Encoder;
      if conf.jsonFormat {
        encoder := JSONEncoder;
      } else {
        encoder := ConsoleEncoder;
      }

      if conf.consoleOut {
        var level := conf.logLevel;
        if conf.consoleLevel != "" {
          level := conf.consoleLevel;
        }
        cores := cores + [Sink(Stdout, GetLevel(level))];
      }
      assert cores == if settings.consoleOut then [ConsoleSink(settings)] else [];

      if conf.fileOut.enable {
        var writeSyncer := GetFileWriteSyncer(conf.fileOut.Value());
        cores := cores + [Sink(RotatingFileSink(writeSyncer), GetLevel(conf.logLevel))];
      }

      var name: Option<string> := None;
      if conf.loggerName != "" {
        name := Some(conf.loggerName);
      }

      active := Pipeline(encoder, cores, conf.callerSkip, GetLevel(conf.stacktraceLevel), true, name);
      assert active == Build(settings);
    }
  }

  /**
   * Reconfiguring mid-stream, on values: from the defaults with the console
   * on, an info record reaches the console alone; once file output is
   * enabled as well, the rebuilt pipeline sends it to the console and then
   * to the file.
   */
  lemma RebuildAddsFileSink(buffer: StringSlice, filename: string)
    ensures var c := Apply(Defaults(buffer), EnableConsoleOut);
            Route(Build(c).sinks, Info) == [ConsoleSink(c)]
    ensures var d := Apply(Apply(Defaults(buffer), EnableConsoleOut), EnableFileOut(filename));
            Route(Build(d).sinks, Info) == [ConsoleSink(d), FileSink(d)]
  {
    var c := Apply(Defaults(buffer), EnableConsoleOut);
    assert Build(c).sinks == [Sink(Stdout, Info)];
    var d := Apply(c, EnableFileOut(filename));
    assert Build(d).sinks == [Sink(Stdout, Info), FileSink(d)];
  }

  /**
   * The same scenario on a logger object: enabling file output changes
   * nothing until `ApplyConfig` runs again.
   */
  method Reconfigure(filename: string)
  {
    var l := new Logger.New();
    ghost var buffer := l.config.sliceOutSlice;
    l.config.EnableConsoleOut();
    l.ApplyConfig();
    ghost var before := l.active;
    assert before == Build(Apply(Defaults(buffer), EnableConsoleOut));

    l.config.EnableFileOut(filename);
    assert l.active == before;

    l.ApplyConfig();
    assert l.active == Build(Apply(Apply(Defaults(buffer), EnableConsoleOut), EnableFileOut(filename)));
    RebuildAddsFileSink(buffer, filename);
  }
}
