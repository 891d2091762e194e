/**
 * Level names and the file-sink descriptor (logger/tools.go).
 *
 * `GetLevel` is the lookup in the seven-entry table `LevelMap`, falling
 * back to `Info`; `Level.Name` is the reverse direction, naming each level
 * by its table key, and is what the lemmas compare the lookup against.
 */
module Tools {
  import opened Configuration

  /** The severities of zapcore, in increasing order. */
  datatype Level = Debug | Info | Warn | Error | DPanic | Panic | Fatal {

    /** The zapcore.Level number (an int8): -1 for debug up to 5 for fatal. */
    function Code(): int
    {
      match this
      case Debug => -1
      case Info => 0
      case Warn => 1
      case Error => 2
      case DPanic => 3
      case Panic => 4
      case Fatal => 5
    }

    /** The key of this level in `LevelMap`. */
    function Name(): string
    {
      match this
      case Debug => "debug"
      case Info => "info"
      case Warn => "warn"
      case Error => "error"
      case DPanic => "dpanic"
      case Panic => "panic"
      case Fatal => "fatal"
    }
  }

  /** The order zap filters with: `a` is at most as severe as `b`. */
  predicate AtMost(a: Level, b: Level)
  {
    a.Code() <= b.Code()
  }

  /** The table `levelMap`. */
  const LevelMap: map<string, Level> := map[
    "debug" := Debug,
    "info" := Info,
    "warn" := Warn,
    "error" := Error,
    "dpanic" := DPanic,
    "panic" := Panic,
    "fatal" := Fatal]

  /** The seven levels listed from least to most severe. */
  const Ordered: seq<Level> := [Debug, Info, Warn, Error, DPanic, Panic, Fatal]

  /**
   * `getLevel`: the level whose name is exactly `level`, and `Info` for any
   * other string. It is total: no string makes it fail.
   */
  function GetLevel(level: string): (r: Level)
    ensures r.Name() == level || (r == Info && level !in LevelMap)
    ensures level in LevelMap ==> r.Name() == level
  {
    if level in LevelMap then LevelMap[level] else Info
  }

  /** The table's keys are exactly the seven level names. */
  lemma LevelMapKeys()
    ensures LevelMap.Keys == set l: Level | true :: l.Name()
  {
    var names := set l: Level | true :: l.Name();
    forall k | k in LevelMap
      ensures k in names
    {
      assert LevelMap[k].Name() == k;
    }
  }

  /** Looking up a level's own name gives that level back. */
  lemma GetLevelOfName(l: Level)
    ensures GetLevel(l.Name()) == l
  {
  }

  /** A result other than the fallback is only ever produced by its own exact name. */
  lemma GetLevelExact(level: string, l: Level)
    ensures GetLevel(level) == l <==> level == l.Name() || (l == Info && level !in LevelMap)
  {
  }

  /** The unit test's cases and the exactness of the match. */
  lemma GetLevelExamples()
    ensures GetLevel("") == Info
    ensures GetLevel("error") == Error
    ensures GetLevel("ERROR") == Info
    ensures GetLevel("Warn") == Info
  {
    assert "ERROR"[0] != "error"[0];
    assert "Warn"[0] != "warn"[0];
  }

  /** `Ordered` lists every level once, each strictly more severe than the one before. */
  lemma LevelsStrictlyIncrease()
    ensures forall l: Level :: l in Ordered
    ensures forall i, j :: 0 <= i < j < |Ordered| ==> Ordered[i].Code() < Ordered[j].Code()
    ensures forall i :: 0 <= i < |Ordered| ==> Ordered[i].Code() == i - 1
  {
    forall l: Level
      ensures l in Ordered
    {
      assert Ordered[l.Code() + 1] == l;
    }
  }

  /** `AtMost` is a total order on levels. */
  lemma AtMostTotalOrder(a: Level, b: Level, c: Level)
    ensures AtMost(a, a)
    ensures AtMost(a, b) && AtMost(b, a) ==> a == b
    ensures AtMost(a, b) && AtMost(b, c) ==> AtMost(a, c)
    ensures AtMost(a, b) || AtMost(b, a)
  {
  }

  /** The rotation policy handed to the rotating-file writer (a lumberjack.Logger). */
  datatype RotatingFile = RotatingFile(
    filename: string,
    maxSize: Int64,
    maxBackups: Int64,
    maxAge: Int64,
    compress: bool)

  /** `getFileWriteSyncer`: the writer for a by-value copy of the file block. */
  function GetFileWriteSyncer(f: FileOutValue): RotatingFile
  {
    RotatingFile(f.filename, f.maxSize, f.maxBackups, f.maxAge, f.compress)
  }

  /**
   * The writer carries all five rotation parameters over unchanged, each to
   * the field of the same name; so two file blocks give the same writer
   * exactly when they differ at most in their `enable` flag.
   */
  lemma FileWriteSyncerCopies(f: FileOutValue, g: FileOutValue)
    ensures GetFileWriteSyncer(f).filename == f.filename
    ensures GetFileWriteSyncer(f).maxSize == f.maxSize
    ensures GetFileWriteSyncer(f).maxBackups == f.maxBackups
    ensures GetFileWriteSyncer(f).maxAge == f.maxAge
    ensures GetFileWriteSyncer(f).compress == f.compress
    ensures GetFileWriteSyncer(f) == GetFileWriteSyncer(g) <==> f.(enable := g.enable) == g
  {
  }
}
