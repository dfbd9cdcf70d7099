/** The YAML-driven logger builder: a case-insensitive level parser and the construction of a
    single-sink logger from the `file` section of a configuration document, written into a
    caller-supplied logger object. */
module SimpleLog {
  import opened Ascii
  import opened Levels
  import opened Plans

  /** One key of a YAML mapping as the conversion to the wanted type sees it: absent, present
      and convertible to `value`, or present but not convertible. */
  datatype Field<T> = Missing | Given(value: T) | Invalid

  datatype TimeConfig = TimeConfig(hour: Field<int>, minute: Field<int>)

  datatype SizeConfig = SizeConfig(maxSize: Field<nat>, maxFiles: Field<nat>)

  /** The `file` section; `timeConfig` and `sizeConfig` are its optional sub-sections. */
  datatype FileSection = FileSection(
    enabled: Field<bool>,
    filename: Field<string>,
    append: Field<bool>,
    rotationStrategy: Field<string>,
    timeConfig: Option<TimeConfig>,
    sizeConfig: Option<SizeConfig>,
    level: Field<string>,
    pattern: Field<string>)

  /** A configuration file: one that cannot be loaded or parsed, or a document with an optional
      `file` section. */
  datatype Document = Unloadable | Loaded(file: Option<FileSection>)

  const DefaultFilename: string := "logs/app.log"
  const DefaultStrategy: string := "size"
  const DefaultMaxSize: nat := 5 * 1024 * 1024
  const DefaultMaxFiles: nat := 5

  /** `node.as<T>(fallback)`: a key that is absent or does not convert yields the fallback. */
  function OrElse<T>(f: Field<T>, fallback: T): T {
    if f.Given? then f.value else fallback
  }

  /** `SimpleLogger::stringToLevel`: lower a copy of the string in place, then match the seven
      spellings; anything else is Info. */
  method StringToLevel(levelStr: string) returns (r: Level)
    ensures r == LevelNamed(Lower(levelStr))
    ensures ConfigName(r) == Lower(levelStr) || (r == Info && forall l :: ConfigName(l) != Lower(levelStr))
  {
    var level := new char[|levelStr|](i requires 0 <= i < |levelStr| => levelStr[i]);
    var i := 0;
    while i < level.Length
      invariant 0 <= i <= level.Length
      invariant forall k :: 0 <= k < i ==> level[k] == ToLowerChar(levelStr[k])
      invariant forall k :: i <= k < level.Length ==> level[k] == levelStr[k]
    {
      level[i] := ToLowerChar(level[i]);
      i := i + 1;
    }
    var lowered := level[..];
    assert lowered == Lower(levelStr);
    if lowered == "trace" {
      r := Trace;
    } else if lowered == "debug" {
      r := Debug;
    } else if lowered == "info" {
      r := Info;
    } else if lowered == "warn" {
      r := Warn;
    } else if lowered == "error" {
      r := Err;
    } else if lowered == "critical" {
      r := Critical;
    } else if lowered == "off" {
      r := Off;
    } else {
      r := Info;
    }
    LevelNamedRoundTrip(r);
  }

  /** Any casing of a level's spelling ("WARN", "Warn", "wArN") parses to that level. */
  lemma AnyCasingParses(l: Level, s: string)
    requires Lower(s) == Lower(ConfigName(l))
    ensures LevelNamed(Lower(s)) == l
  {
  }

  /** Strings that differ only in letter case parse to the same level. */
  lemma ParseIgnoresCase(s: string, t: string)
    requires |s| == |t|
    requires forall i :: 0 <= i < |s| ==> ToLowerChar(s[i]) == ToLowerChar(t[i])
    ensures LevelNamed(Lower(s)) == LevelNamed(Lower(t))
  {
    assert Lower(s) == Lower(t);
  }

  // The specification of `createFromConfig` is written over the values below.

  /** A document whose `file` section exists and is enabled; a missing `enabled` counts as true. */
  predicate Enabled(doc: Document) {
    doc.Loaded? && doc.file.Some? && OrElse(doc.file.value.enabled, true)
  }

  function Strategy(f: FileSection): string {
    OrElse(f.rotationStrategy, DefaultStrategy)
  }

  function Filename(f: FileSection): string {
    OrElse(f.filename, DefaultFilename)
  }

  function Append(f: FileSection): bool {
    OrElse(f.append, true)
  }

  function Hour(f: FileSection): int {
    if f.timeConfig.Some? then OrElse(f.timeConfig.value.hour, 0) else 0
  }

  function Minute(f: FileSection): int {
    if f.timeConfig.Some? then OrElse(f.timeConfig.value.minute, 0) else 0
  }

  function MaxSize(f: FileSection): nat {
    if f.sizeConfig.Some? then OrElse<nat>(f.sizeConfig.value.maxSize, DefaultMaxSize) else DefaultMaxSize
  }

  function MaxFiles(f: FileSection): nat {
    if f.sizeConfig.Some? then OrElse<nat>(f.sizeConfig.value.maxFiles, DefaultMaxFiles) else DefaultMaxFiles
  }

  /** The level set on the sink: the parsed `level` key when present. */
  function SinkLevel(f: FileSection): Option<Level> {
    if f.level.Given? then Some(LevelNamed(Lower(f.level.value))) else None
  }

  function SinkPattern(f: FileSection): Option<string> {
    if f.pattern.Given? then Some(f.pattern.value) else None
  }

  /** Some key read without a fallback is present but does not convert; only the keys the chosen
      strategy reads matter. */
  predicate ReadFails(f: FileSection) {
    || f.rotationStrategy.Invalid?
    || (Strategy(f) == "time" &&
        (|| (f.timeConfig.Some? && (f.timeConfig.value.hour.Invalid? || f.timeConfig.value.minute.Invalid?))
         || f.level.Invalid? || f.pattern.Invalid?))
    || (Strategy(f) == "size" &&
        (|| (f.sizeConfig.Some? && (f.sizeConfig.value.maxSize.Invalid? || f.sizeConfig.value.maxFiles.Invalid?))
         || f.level.Invalid? || f.pattern.Invalid?))
  }

  /** Set the optional `level` and `pattern` keys on a freshly constructed sink. */
  method ConfigureSink(file: FileSection, sink: SinkPlan) returns (ok: bool, configured: SinkPlan)
    ensures ok <==> !file.level.Invalid? && !file.pattern.Invalid?
    ensures ok ==> configured.kind == sink.kind
    ensures ok ==> configured.level == if file.level.Given? then Some(LevelNamed(Lower(file.level.value))) else sink.level
    ensures ok ==> configured.pattern == if file.pattern.Given? then Some(file.pattern.value) else sink.pattern
  {
    configured := sink;
    match file.level {
      case Missing =>
      case Invalid =>
        ok := false;
        return;
      case Given(s) =>
        var l := StringToLevel(s);
        configured := configured.(level := Some(l));
    }
    match file.pattern {
      case Missing =>
      case Invalid =>
        ok := false;
        return;
      case Given(p) =>
        configured := configured.(pattern := Some(p));
    }
    ok := true;
  }

  /** `SimpleLogger::createFromConfig`: on success `logger` holds the configured logger and the
      result is true; on failure the result is false and `logger` is untouched. */
  method CreateFromConfig(doc: Document, logger: Logger) returns (ok: bool)
    modifies logger
    ensures !Enabled(doc) ==> !ok
    ensures Enabled(doc) ==> (ok <==> !ReadFails(doc.file.value))
    ensures !ok ==> logger.Plan() == old(logger.Plan())
    ensures ok ==> logger.level == Info
    ensures ok && Strategy(doc.file.value) == "time" ==>
      var f := doc.file.value;
      logger.Plan() == LoggerPlan("main", Info, None,
        [SinkPlan(Daily(Filename(f), Hour(f), Minute(f), Some(Append(f))), SinkLevel(f), SinkPattern(f))])
    ensures ok && Strategy(doc.file.value) == "size" ==>
      var f := doc.file.value;
      logger.Plan() == LoggerPlan("main", Info, None,
        [SinkPlan(Rotating(Filename(f), MaxSize(f), MaxFiles(f), Some(Append(f))), SinkLevel(f), SinkPattern(f))])
    ensures ok && Strategy(doc.file.value) != "time" && Strategy(doc.file.value) != "size" ==>
      logger.Plan() == old(logger.Plan()).(level := Info)
  {
    if doc.Unloadable? || doc.file.None? {
      return false;
    }
    var file := doc.file.value;
    if !OrElse(file.enabled, true) {
      return false;
    }
    var filename := OrElse(file.filename, DefaultFilename);
    var append := OrElse(file.append, true);
    var rotationStrategy := DefaultStrategy;
    match file.rotationStrategy {
      case Missing =>
      case Invalid => return false;
      case Given(s) => rotationStrategy := s;
    }
    if rotationStrategy == "time" {
      var hour, minute := 0, 0;
      if file.timeConfig.Some? {
        var timeConfig := file.timeConfig.value;
        match timeConfig.hour {
          case Missing =>
          case Invalid => return false;
          case Given(h) => hour := h;
        }
        match timeConfig.minute {
          case Missing =>
          case Invalid => return false;
          case Given(m) => minute := m;
        }
      }
      var sink := SinkPlan(Daily(filename, hour, minute, Some(append)), None, None);
      ok, sink := ConfigureSink(file, sink);
      if !ok {
        return;
      }
      logger.Reset("main", [sink]);
    } else if rotationStrategy == "size" {
      var maxSize, maxFiles := DefaultMaxSize, DefaultMaxFiles;
      if file.sizeConfig.Some? {
        var sizeConfig := file.sizeConfig.value;
        match sizeConfig.maxSize {
          case Missing =>
          case Invalid => return false;
          case Given(n) => maxSize := n;
        }
        match sizeConfig.maxFiles {
          case Missing =>
          case Invalid => return false;
          case Given(n) => maxFiles := n;
        }
      }
      var sink := SinkPlan(Rotating(filename, maxSize, maxFiles, Some(append)), None, None);
      ok, sink := ConfigureSink(file, sink);
      if !ok {
        return;
      }
      logger.Reset("main", [sink]);
    }
    logger.SetLevel(Info);
    return true;
  }
}
