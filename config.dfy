/**
 * The mutable settings object of the logger (logger/config.go).
 *
 * `Config` keeps its scalar settings in its own fields and the file-output
 * block in a separately allocated `FileOut` object that it reaches through a
 * reference, as the Go code does through `*fileOut`. The capture buffer is a
 * `StringSlice` object held by reference, so the `Config` and any caller that
 * kept the reference see the same lines.
 *
 * Every setter is specified by `Apply`, a function on the value snapshot
 * `ConfigValue`; the lemmas at the end of the module prove that a setter
 * writes exactly the fields listed by `Assignments` and nothing else.
 */
module Configuration {

  /** Go's `int` on a 64-bit platform; the settings only store such values. */
  newtype Int64 = x: int | -0x8000_0000_0000_0000 <= x < 0x8000_0000_0000_0000

  /** A `*[]string`: a slice of rendered lines reached through a pointer. */
  class StringSlice {
    var lines: seq<string>

    constructor (lines: seq<string>)
      ensures this.lines == lines
    {
      this.lines := lines;
    }
  }

  /** A caller-supplied `io.Writer`; only its identity is observable here. */
  class Writer {
    constructor () {}
  }

  /** The file-output block as a value: what a by-value copy `*conf.fileOut` holds. */
  datatype FileOutValue = FileOutValue(
    enable: bool,
    filename: string,
    maxSize: Int64,     // megabytes before rotation
    maxBackups: Int64,  // rotated files kept
    maxAge: Int64,      // days a rotated file is kept
    compress: bool)

  /** A snapshot of every field of a `Config`, with the file block copied by value. */
  datatype ConfigValue = ConfigValue(
    logLevel: string,
    stacktraceLevel: string,
    loggerName: string,
    callerSkip: Int64,
    jsonFormat: bool,
    consoleOut: bool,
    consoleLevel: string,
    fileOut: FileOutValue,
    sliceOut: bool,
    sliceOutSlice: StringSlice?,
    output: Writer?)

  /** The file-output block, updated in place by the `Config` setters. */
  class FileOut {
    var enable: bool
    var filename: string
    var maxSize: Int64
    var maxBackups: Int64
    var maxAge: Int64
    var compress: bool

    function Value(): FileOutValue
      reads this
    {
      FileOutValue(enable, filename, maxSize, maxBackups, maxAge, compress)
    }

    constructor (v: FileOutValue)
      ensures Value() == v
    {
      enable, filename := v.enable, v.filename;
      maxSize, maxBackups, maxAge := v.maxSize, v.maxBackups, v.maxAge;
      compress := v.compress;
    }
  }

  /** The settings `newConfig` starts from, around a freshly allocated empty buffer. */
  function Defaults(buffer: StringSlice): ConfigValue
  {
    ConfigValue(
      logLevel := "info",
      stacktraceLevel := "panic",
      loggerName := "",
      callerSkip := 1,
      jsonFormat := false,
      consoleOut := false,
      consoleLevel := "",
      fileOut := FileOutValue(false, "", 10, 5, 30, false),
      sliceOut := false,
      sliceOutSlice := buffer,
      output := null)
  }

  // ---------------------------------------------------------------------
  // The setters as operations on values
  // ---------------------------------------------------------------------

  /** One call of a `Config` setter, with its argument. */
  datatype Setter =
    | SetLogLevel(level: string)
    | SetStacktraceLevel(level: string)
    | SetLoggerName(name: string)
    | SetCallerSkip(skip: Int64)
    | EnableJSONFormat
    | DisableJSONFormat
    | EnableConsoleOut
    | DisableConsoleOut
    | SetConsoleLevel(level: string)
    | ClearConsoleLevel
    | EnableSliceOut
    | DisableSliceOut
    | SetSliceOutSlice(buffer: StringSlice?)
    | EnableFileOut(filename: string)
    | DisableFileOut(filename: string)
    | SetFileOutMaxSize(size: Int64)
    | SetFileOutMaxBackups(backups: Int64)
    | SetFileOutMaxAge(age: Int64)
    | EnableFileOutCompress
    | DisableFileOutCompress
    | SetOutput(writer: Writer?)
    | ClearOutput

  /** The state after one setter call. */
  function Apply(c: ConfigValue, s: Setter): ConfigValue
  {
    match s
    case SetLogLevel(level) => c.(logLevel := level)
    case SetStacktraceLevel(level) => c.(stacktraceLevel := level)
    case SetLoggerName(name) => c.(loggerName := name)
    case SetCallerSkip(skip) => c.(callerSkip := skip)
    case EnableJSONFormat => c.(jsonFormat := true)
    case DisableJSONFormat => c.(jsonFormat := false)
    case EnableConsoleOut => c.(consoleOut := true)
    case DisableConsoleOut => c.(consoleOut := false)
    case SetConsoleLevel(level) => c.(consoleLevel := level)
    case ClearConsoleLevel => c.(consoleLevel := "")
    case EnableSliceOut => c.(sliceOut := true)
    case DisableSliceOut => c.(sliceOut := false)
    case SetSliceOutSlice(buffer) => c.(sliceOutSlice := buffer)
    case EnableFileOut(filename) => c.(fileOut := c.fileOut.(enable := true, filename := filename))
    case DisableFileOut(_) => c.(fileOut := c.fileOut.(enable := false))
    case SetFileOutMaxSize(size) => c.(fileOut := c.fileOut.(maxSize := size))
    case SetFileOutMaxBackups(backups) => c.(fileOut := c.fileOut.(maxBackups := backups))
    case SetFileOutMaxAge(age) => c.(fileOut := c.fileOut.(maxAge := age))
    case EnableFileOutCompress => c.(fileOut := c.fileOut.(compress := true))
    case DisableFileOutCompress => c.(fileOut := c.fileOut.(compress := false))
    case SetOutput(writer) => c.(output := writer)
    case ClearOutput => c.(output := null)
  }

  /** The individually settable fields, the file block's fields included. */
  datatype Field =
    | LogLevel | StacktraceLevel | LoggerName | CallerSkip | JsonFormat
    | ConsoleOut | ConsoleLevel | SliceOut | SliceOutSlice | Output
    | FileEnable | FileName | FileMaxSize | FileMaxBackups | FileMaxAge | FileCompress

  /** The content of one field. */
  datatype FieldValue =
    | Text(text: string)
    | Number(number: Int64)
    | Flag(flag: bool)
    | Buffer(buffer: StringSlice?)
    | Destination(writer: Writer?)

  /** Reads one field of a snapshot. */
  function Get(c: ConfigValue, f: Field): FieldValue
  {
    match f
    case LogLevel => Text(c.logLevel)
    case StacktraceLevel => Text(c.stacktraceLevel)
    case LoggerName => Text(c.loggerName)
    case CallerSkip => Number(c.callerSkip)
    case JsonFormat => Flag(c.jsonFormat)
    case ConsoleOut => Flag(c.consoleOut)
    case ConsoleLevel => Text(c.consoleLevel)
    case SliceOut => Flag(c.sliceOut)
    case SliceOutSlice => Buffer(c.sliceOutSlice)
    case Output => Destination(c.output)
    case FileEnable => Flag(c.fileOut.enable)
    case FileName => Text(c.fileOut.filename)
    case FileMaxSize => Number(c.fileOut.maxSize)
    case FileMaxBackups => Number(c.fileOut.maxBackups)
    case FileMaxAge => Number(c.fileOut.maxAge)
    case FileCompress => Flag(c.fileOut.compress)
  }

  /**
   * The fields a setter is documented to write and the values it writes
   * there. The values depend on the setter's argument only, never on the
   * state it is applied to.
   */
  function Assignments(s: Setter): map<Field, FieldValue>
  {
    match s
    case SetLogLevel(level) => map[LogLevel := Text(level)]
    case SetStacktraceLevel(level) => map[StacktraceLevel := Text(level)]
    case SetLoggerName(name) => map[LoggerName := Text(name)]
    case SetCallerSkip(skip) => map[CallerSkip := Number(skip)]
    case EnableJSONFormat => map[JsonFormat := Flag(true)]
    case DisableJSONFormat => map[JsonFormat := Flag(false)]
    case EnableConsoleOut => map[ConsoleOut := Flag(true)]
    case DisableConsoleOut => map[ConsoleOut := Flag(false)]
    case SetConsoleLevel(level) => map[ConsoleLevel := Text(level)]
    case ClearConsoleLevel => map[ConsoleLevel := Text("")]
    case EnableSliceOut => map[SliceOut := Flag(true)]
    case DisableSliceOut => map[SliceOut := Flag(false)]
    case SetSliceOutSlice(buffer) => map[SliceOutSlice := Buffer(buffer)]
    case EnableFileOut(filename) => map[FileEnable := Flag(true), FileName := Text(filename)]
    case DisableFileOut(_) => map[FileEnable := Flag(false)]
    case SetFileOutMaxSize(size) => map[FileMaxSize := Number(size)]
    case SetFileOutMaxBackups(backups) => map[FileMaxBackups := Number(backups)]
    case SetFileOutMaxAge(age) => map[FileMaxAge := Number(age)]
    case EnableFileOutCompress => map[FileCompress := Flag(true)]
    case DisableFileOutCompress => map[FileCompress := Flag(false)]
    case SetOutput(writer) => map[Output := Destination(writer)]
    case ClearOutput => map[Output := Destination(null)]
  }

  /**
   * A setter writes exactly the fields of its `Assignments`, with the values
   * listed there, and leaves every other field as it was.
   */
  lemma SetterFrame(c: ConfigValue, s: Setter)
    ensures forall f :: f in Assignments(s) ==> Get(Apply(c, s), f) == Assignments(s)[f]
    ensures forall f :: f !in Assignments(s) ==> Get(Apply(c, s), f) == Get(c, f)
  {
    forall f
      ensures f in Assignments(s) ==> Get(Apply(c, s), f) == Assignments(s)[f]
      ensures f !in Assignments(s) ==> Get(Apply(c, s), f) == Get(c, f)
    {
      SetterFrameAt(c, s, f);
    }
  }

  /**
   * `SetterFrame` for one field. The cases are handed to small lemmas, one
   * per group of setters, because a single proof over all setters and all
   * fields does not fit within the verifier's resource limit.
   */
  lemma SetterFrameAt(c: ConfigValue, s: Setter, f: Field)
    ensures f in Assignments(s) ==> Get(Apply(c, s), f) == Assignments(s)[f]
    ensures f !in Assignments(s) ==> Get(Apply(c, s), f) == Get(c, f)
  {
    match s
    case SetLogLevel(_) => LevelsFrameAt(c, s, f);
    case SetStacktraceLevel(_) => LevelsFrameAt(c, s, f);
    case SetLoggerName(_) => NameSkipFrameAt(c, s, f);
    case SetCallerSkip(_) => NameSkipFrameAt(c, s, f);
    case EnableJSONFormat => JSONFormatFrameAt(c, s, f);
    case DisableJSONFormat => JSONFormatFrameAt(c, s, f);
    case EnableConsoleOut => ConsoleOutFrameAt(c, s, f);
    case DisableConsoleOut => ConsoleOutFrameAt(c, s, f);
    case SetConsoleLevel(_) => ConsoleLevelFrameAt(c, s, f);
    case ClearConsoleLevel => ConsoleLevelFrameAt(c, s, f);
    case EnableSliceOut => SliceOutFrameAt(c, s, f);
    case DisableSliceOut => SliceOutFrameAt(c, s, f);
    case SetSliceOutSlice(_) => SliceOutFrameAt(c, s, f);
    case SetOutput(_) => OutputFrameAt(c, s, f);
    case ClearOutput => OutputFrameAt(c, s, f);
    case EnableFileOut(_) => FileOutFrameAt(c, s, f);
    case DisableFileOut(_) => FileOutFrameAt(c, s, f);
    case SetFileOutMaxSize(_) => FileSizeFrameAt(c, s, f);
    case SetFileOutMaxBackups(_) => FileRetentionFrameAt(c, s, f);
    case SetFileOutMaxAge(_) => FileRetentionFrameAt(c, s, f);
    case EnableFileOutCompress => FileCompressFrameAt(c, s, f);
    case DisableFileOutCompress => FileCompressFrameAt(c, s, f);
  }

  /** `SetterFrameAt` for the setters of the default and stack-trace levels. */
  lemma LevelsFrameAt(c: ConfigValue, s: Setter, f: Field)
    requires s.SetLogLevel? || s.SetStacktraceLevel?
    ensures f in Assignments(s) ==> Get(Apply(c, s), f) == Assignments(s)[f]
    ensures f !in Assignments(s) ==> Get(Apply(c, s), f) == Get(c, f)
  {
    match s
    case SetLogLevel(_) =>
    case SetStacktraceLevel(_) =>
  }

  /** `SetterFrameAt` for the setters of the name and the caller skip. */
  lemma NameSkipFrameAt(c: ConfigValue, s: Setter, f: Field)
    requires s.SetLoggerName? || s.SetCallerSkip?
    ensures f in Assignments(s) ==> Get(Apply(c, s), f) == Assignments(s)[f]
    ensures f !in Assignments(s) ==> Get(Apply(c, s), f) == Get(c, f)
  {
    match s
    case SetLoggerName(_) =>
    case SetCallerSkip(_) =>
  }

  /** `SetterFrameAt` for the setters of the format. */
  lemma JSONFormatFrameAt(c: ConfigValue, s: Setter, f: Field)
    requires s.EnableJSONFormat? || s.DisableJSONFormat?
    ensures f in Assignments(s) ==> Get(Apply(c, s), f) == Assignments(s)[f]
    ensures f !in Assignments(s) ==> Get(Apply(c, s), f) == Get(c, f)
  {
    match s
    case EnableJSONFormat =>
    case DisableJSONFormat =>
  }

  /** `SetterFrameAt` for the setters of the console switch. */
  lemma ConsoleOutFrameAt(c: ConfigValue, s: Setter, f: Field)
    requires s.EnableConsoleOut? || s.DisableConsoleOut?
    ensures f in Assignments(s) ==> Get(Apply(c, s), f) == Assignments(s)[f]
    ensures f !in Assignments(s) ==> Get(Apply(c, s), f) == Get(c, f)
  {
    match s
    case EnableConsoleOut =>
    case DisableConsoleOut =>
  }

  /** `SetterFrameAt` for the setters of the console level. */
  lemma ConsoleLevelFrameAt(c: ConfigValue, s: Setter, f: Field)
    requires s.SetConsoleLevel? || s.ClearConsoleLevel?
    ensures f in Assignments(s) ==> Get(Apply(c, s), f) == Assignments(s)[f]
    ensures f !in Assignments(s) ==> Get(Apply(c, s), f) == Get(c, f)
  {
    match s
    case SetConsoleLevel(_) =>
    case ClearConsoleLevel =>
  }

  /** `SetterFrameAt` for the setters of the capture buffer. */
  lemma SliceOutFrameAt(c: ConfigValue, s: Setter, f: Field)
    requires s.EnableSliceOut? || s.DisableSliceOut? || s.SetSliceOutSlice?
    ensures f in Assignments(s) ==> Get(Apply(c, s), f) == Assignments(s)[f]
    ensures f !in Assignments(s) ==> Get(Apply(c, s), f) == Get(c, f)
  {
    match s
    case EnableSliceOut =>
    case DisableSliceOut =>
    case SetSliceOutSlice(_) =>
  }

  /** `SetterFrameAt` for the setters of the custom writer. */
  lemma OutputFrameAt(c: ConfigValue, s: Setter, f: Field)
    requires s.SetOutput? || s.ClearOutput?
    ensures f in Assignments(s) ==> Get(Apply(c, s), f) == Assignments(s)[f]
    ensures f !in Assignments(s) ==> Get(Apply(c, s), f) == Get(c, f)
  {
    match s
    case SetOutput(_) =>
    case ClearOutput =>
  }

  /** `SetterFrameAt` for the setters of the file switch. */
  lemma FileOutFrameAt(c: ConfigValue, s: Setter, f: Field)
    requires s.EnableFileOut? || s.DisableFileOut?
    ensures f in Assignments(s) ==> Get(Apply(c, s), f) == Assignments(s)[f]
    ensures f !in Assignments(s) ==> Get(Apply(c, s), f) == Get(c, f)
  {
    match s
    case EnableFileOut(_) =>
    case DisableFileOut(_) =>
  }

  /** `SetterFrameAt` for the setter of the rotation size. */
  lemma FileSizeFrameAt(c: ConfigValue, s: Setter, f: Field)
    requires s.SetFileOutMaxSize?
    ensures f in Assignments(s) ==> Get(Apply(c, s), f) == Assignments(s)[f]
    ensures f !in Assignments(s) ==> Get(Apply(c, s), f) == Get(c, f)
  {
  }

  /** `SetterFrameAt` for the setters of the retention limits. */
  lemma FileRetentionFrameAt(c: ConfigValue, s: Setter, f: Field)
    requires s.SetFileOutMaxBackups? || s.SetFileOutMaxAge?
    ensures f in Assignments(s) ==> Get(Apply(c, s), f) == Assignments(s)[f]
    ensures f !in Assignments(s) ==> Get(Apply(c, s), f) == Get(c, f)
  {
    match s
    case SetFileOutMaxBackups(_) =>
    case SetFileOutMaxAge(_) =>
  }

  /** `SetterFrameAt` for the setters of compression. */
  lemma FileCompressFrameAt(c: ConfigValue, s: Setter, f: Field)
    requires s.EnableFileOutCompress? || s.DisableFileOutCompress?
    ensures f in Assignments(s) ==> Get(Apply(c, s), f) == Assignments(s)[f]
    ensures f !in Assignments(s) ==> Get(Apply(c, s), f) == Get(c, f)
  {
    match s
    case EnableFileOutCompress =>
    case DisableFileOutCompress =>
  }

  /** The fields listed in `Field` cover the whole snapshot. */
  lemma Extensional(c: ConfigValue, d: ConfigValue)
    requires forall f :: Get(c, f) == Get(d, f)
    ensures c == d
  {
    assert c.logLevel == d.logLevel by { assert Get(c, LogLevel) == Get(d, LogLevel); }
    assert c.stacktraceLevel == d.stacktraceLevel by { assert Get(c, StacktraceLevel) == Get(d, StacktraceLevel); }
    assert c.loggerName == d.loggerName by { assert Get(c, LoggerName) == Get(d, LoggerName); }
    assert c.callerSkip == d.callerSkip by { assert Get(c, CallerSkip) == Get(d, CallerSkip); }
    assert c.jsonFormat == d.jsonFormat by { assert Get(c, JsonFormat) == Get(d, JsonFormat); }
    assert c.consoleOut == d.consoleOut by { assert Get(c, ConsoleOut) == Get(d, ConsoleOut); }
    assert c.consoleLevel == d.consoleLevel by { assert Get(c, ConsoleLevel) == Get(d, ConsoleLevel); }
    assert c.sliceOut == d.sliceOut by { assert Get(c, SliceOut) == Get(d, SliceOut); }
    assert c.sliceOutSlice == d.sliceOutSlice by { assert Get(c, SliceOutSlice) == Get(d, SliceOutSlice); }
    assert c.output == d.output by { assert Get(c, Output) == Get(d, Output); }
    assert c.fileOut.enable == d.fileOut.enable by { assert Get(c, FileEnable) == Get(d, FileEnable); }
    assert c.fileOut.filename == d.fileOut.filename by { assert Get(c, FileName) == Get(d, FileName); }
    assert c.fileOut.maxSize == d.fileOut.maxSize by { assert Get(c, FileMaxSize) == Get(d, FileMaxSize); }
    assert c.fileOut.maxBackups == d.fileOut.maxBackups by { assert Get(c, FileMaxBackups) == Get(d, FileMaxBackups); }
    assert c.fileOut.maxAge == d.fileOut.maxAge by { assert Get(c, FileMaxAge) == Get(d, FileMaxAge); }
    assert c.fileOut.compress == d.fileOut.compress by { assert Get(c, FileCompress) == Get(d, FileCompress); }
  }

  /** A later setter that writes every field an earlier one wrote cancels the earlier one. */
  lemma SetterOverwrites(c: ConfigValue, s: Setter, t: Setter)
    requires Assignments(s).Keys <= Assignments(t).Keys
    ensures Apply(Apply(c, s), t) == Apply(c, t)
  {
    forall f
      ensures Get(Apply(Apply(c, s), t), f) == Get(Apply(c, t), f)
    {
      SetterFrameAt(c, s, f);
      SetterFrameAt(Apply(c, s), t, f);
      SetterFrameAt(c, t, f);
    }
    Extensional(Apply(Apply(c, s), t), Apply(c, t));
  }

  /** Calling a setter twice with the same argument has the effect of calling it once. */
  lemma SetterIdempotent(c: ConfigValue, s: Setter)
    ensures Apply(Apply(c, s), s) == Apply(c, s)
  {
    SetterOverwrites(c, s, s);
  }

  /** Setters that write disjoint fields can be called in either order. */
  lemma SettersCommute(c: ConfigValue, s: Setter, t: Setter)
    requires Assignments(s).Keys !! Assignments(t).Keys
    ensures Apply(Apply(c, s), t) == Apply(Apply(c, t), s)
  {
    forall f
      ensures Get(Apply(Apply(c, s), t), f) == Get(Apply(Apply(c, t), s), f)
    {
      SetterFrameAt(c, s, f);
      SetterFrameAt(c, t, f);
      SetterFrameAt(Apply(c, s), t, f);
      SetterFrameAt(Apply(c, t), s, f);
    }
    Extensional(Apply(Apply(c, s), t), Apply(Apply(c, t), s));
  }

  /** `DisableFileOut` ignores its argument and keeps the stored file name. */
  lemma DisableFileOutKeepsFilename(c: ConfigValue, name: string, other: string)
    ensures Apply(c, DisableFileOut(name)) == Apply(c, DisableFileOut(other))
    ensures !Apply(c, DisableFileOut(name)).fileOut.enable
    ensures Apply(c, DisableFileOut(name)).fileOut.filename == c.fileOut.filename
  {
  }

  // ---------------------------------------------------------------------
  // The settings object
  // ---------------------------------------------------------------------

  class Config {
    var logLevel: string         // default minimum level
    var stacktraceLevel: string  // level from which a stack trace is attached
    var loggerName: string       // "" means unnamed
    var callerSkip: Int64
    var jsonFormat: bool
    var consoleOut: bool
    var consoleLevel: string     // "" means: follow logLevel
    const fileOut: FileOut
    var sliceOut: bool
    var sliceOutSlice: StringSlice?
    var output: Writer?

    /** The current settings as a value; the buffer appears by reference only. */
    function Value(): ConfigValue
      reads this, fileOut
    {
      ConfigValue(logLevel, stacktraceLevel, loggerName, callerSkip, jsonFormat,
                  consoleOut, consoleLevel, fileOut.Value(), sliceOut, sliceOutSlice, output)
    }

    /** `newConfig`: the defaults, with a fresh file block and a fresh empty buffer. */
    constructor ()
      ensures sliceOutSlice != null && fresh(sliceOutSlice) && sliceOutSlice.lines == []
      ensures fresh(fileOut)
      ensures Value() == Defaults(sliceOutSlice)
    {
      logLevel, stacktraceLevel, loggerName := "info", "panic", "";
      callerSkip := 1;
      jsonFormat, consoleOut, consoleLevel := false, false, "";
      sliceOut := false;
      sliceOutSlice := new StringSlice([]);
      output := null;
      fileOut := new FileOut(FileOutValue(false, "", 10, 5, 30, false));
    }

    method SetLogLevel(level: string)
      modifies this
      ensures Value() == Apply(old(Value()), Setter.SetLogLevel(level))
    {
      logLevel := level;
    }

    method SetStacktraceLevel(level: string)
      modifies this
      ensures Value() == Apply(old(Value()), Setter.SetStacktraceLevel(level))
    {
      stacktraceLevel := level;
    }

    method SetLoggerName(name: string)
      modifies this
      ensures Value() == Apply(old(Value()), Setter.SetLoggerName(name))
    {
      loggerName := name;
    }

    method SetCallerSkip(skip: Int64)
      modifies this
      ensures Value() == Apply(old(Value()), Setter.SetCallerSkip(skip))
    {
      callerSkip := skip;
    }

    method EnableJSONFormat()
      modifies this
      ensures Value() == Apply(old(Value()), Setter.EnableJSONFormat)
    {
      jsonFormat := true;
    }

    method DisableJSONFormat()
      modifies this
      ensures Value() == Apply(old(Value()), Setter.DisableJSONFormat)
    {
      jsonFormat := false;
    }

    method EnableConsoleOut()
      modifies this
      ensures Value() == Apply(old(Value()), Setter.EnableConsoleOut)
    {
      consoleOut := true;
    }

    method DisableConsoleOut()
      modifies this
      ensures Value() == Apply(old(Value()), Setter.DisableConsoleOut)
    {
      consoleOut := false;
    }

    method SetConsoleLevel(level: string)
      modifies this
      ensures Value() == Apply(old(Value()), Setter.SetConsoleLevel(level))
    {
      consoleLevel := level;
    }

    method ClearConsoleLevel()
      modifies this
      ensures Value() == Apply(old(Value()), Setter.ClearConsoleLevel)
    {
      consoleLevel := "";
    }

    method EnableSliceOut()
      modifies this
      ensures Value() == Apply(old(Value()), Setter.EnableSliceOut)
    {
      sliceOut := true;
    }

    method DisableSliceOut()
      modifies this
      ensures Value() == Apply(old(Value()), Setter.DisableSliceOut)
    {
      sliceOut := false;
    }

    /** Stores the reference itself; the lines are not copied. */
    method SetSliceOutSlice(buffer: StringSlice?)
      modifies this
      ensures Value() == Apply(old(Value()), Setter.SetSliceOutSlice(buffer))
    {
      sliceOutSlice := buffer;
    }

    /** Hands out the stored reference, through which the caller shares the buffer. */
    method GetSliceOutSlice() returns (buffer: StringSlice?)
      ensures buffer == sliceOutSlice
    {
      buffer := sliceOutSlice;
    }

    /**
     * Empties the buffer through the shared reference: every holder of the
     * reference sees no lines afterwards. The settings themselves, the
     * reference included, are unchanged. A nil buffer makes the Go code panic.
     */
    method ClearSliceOutSlice()
      requires sliceOutSlice != null
      modifies sliceOutSlice
      ensures sliceOutSlice.lines == []
      ensures Value() == old(Value())
    {
      sliceOutSlice.lines := [];
    }

    /**
     * Writes the buffer's lines to standard output in insertion order, then
     * empties the buffer. `printed` is what reaches standard output, one
     * element per write.
     */
    method PrintSliceOutSlice() returns (printed: seq<string>)
      requires sliceOutSlice != null
      modifies sliceOutSlice
      ensures printed == old(sliceOutSlice.lines)
      ensures sliceOutSlice.lines == []
      ensures Value() == old(Value())
    {
      printed := [];
      var lines := sliceOutSlice.lines;
      for i := 0 to |lines|
        invariant printed == lines[..i]
      {
        printed := printed + [lines[i]];
      }
      ClearSliceOutSlice();
    }

    /** Turns file output on and sets the file name in one call. */
    method EnableFileOut(filename: string)
      modifies fileOut
      ensures Value() == Apply(old(Value()), Setter.EnableFileOut(filename))
    {
      fileOut.enable := true;
      fileOut.filename := filename;
    }

    /** Turns file output off; the argument is not used. */
    method DisableFileOut(filename: string)
      modifies fileOut
      ensures Value() == Apply(old(Value()), Setter.DisableFileOut(filename))
    {
      fileOut.enable := false;
    }

    method SetFileOutMaxSize(size: Int64)
      modifies fileOut
      ensures Value() == Apply(old(Value()), Setter.SetFileOutMaxSize(size))
    {
      fileOut.maxSize := size;
    }

    method SetFileOutMaxBackups(backups: Int64)
      modifies fileOut
      ensures Value() == Apply(old(Value()), Setter.SetFileOutMaxBackups(backups))
    {
      fileOut.maxBackups := backups;
    }

    method SetFileOutMaxAge(age: Int64)
      modifies fileOut
      ensures Value() == Apply(old(Value()), Setter.SetFileOutMaxAge(age))
    {
      fileOut.maxAge := age;
    }

    method EnableFileOutCompress()
      modifies fileOut
      ensures Value() == Apply(old(Value()), Setter.EnableFileOutCompress)
    {
      fileOut.compress := true;
    }

    method DisableFileOutCompress()
      modifies fileOut
      ensures Value() == Apply(old(Value()), Setter.DisableFileOutCompress)
    {
      fileOut.compress := false;
    }

    method SetOutput(writer: Writer?)
      modifies this
      ensures Value() == Apply(old(Value()), Setter.SetOutput(writer))
    {
      output := writer;
    }

    method ClearOutput()
      modifies this
      ensures Value() == Apply(old(Value()), Setter.ClearOutput)
    {
      output := null;
    }
  }

  /**
   * A caller that handed its buffer to the settings sees the lines drained:
   * the first print returns them in order, the buffer is then empty for the
   * caller too, and a second print with no writes in between returns nothing.
   */
  method DrainSharedBuffer(c: Config, mine: StringSlice, a: string, b: string, d: string)
    modifies c, mine
  {
    c.SetSliceOutSlice(mine);
    var got := c.GetSliceOutSlice();
    assert got == mine;
    mine.lines := mine.lines + [a, b, d];
    var first := c.PrintSliceOutSlice();
    assert first == old(mine.lines) + [a, b, d];
    assert mine.lines == [];
    var second := c.PrintSliceOutSlice();
    assert second == [];
  }
}
