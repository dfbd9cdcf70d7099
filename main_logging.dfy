/** The logger set-up of the configuration-singleton program: an exact-match level parser and
    the assembly of an ordered sink list from flat, already-loaded configuration values. */
module MainLogging {
  import opened Ascii
  import opened Levels
  import opened Plans

  /** `stringToLevel`: an exact, case-sensitive match of the seven spellings; anything else is Info. */
  function StringToLevel(levelStr: string): (r: Level)
    ensures r == LevelNamed(levelStr)
    ensures ConfigName(r) == levelStr || (r == Info && forall l :: ConfigName(l) != levelStr)
  {
    var r :=
      if levelStr == "trace" then Trace
      else if levelStr == "debug" then Debug
      else if levelStr == "info" then Info
      else if levelStr == "warn" then Warn
      else if levelStr == "error" then Err
      else if levelStr == "critical" then Critical
      else if levelStr == "off" then Off
      else Info;
    LevelNamedRoundTrip(r);
    r
  }

  /** Matching is case-sensitive: a string with any upper-case letter, such as "WARN", is Info. */
  lemma UppercaseIsInfo(s: string)
    requires HasUpper(s)
    ensures StringToLevel(s) == Info
  {
  }

  /** The values read from the configuration singleton, one per key. */
  datatype Settings = Settings(
    logConsole: bool,
    level: string,
    pattern: string,
    filename: string,
    immediateFlush: bool,
    rotationStrategy: int,
    maxSize: int,
    maxFiles: int,
    hour: int,
    minute: int)

  /** Strategy 1 rotates by size, strategy 2 daily; any other value adds no file sink. */
  predicate HasFileSink(cfg: Settings) {
    cfg.rotationStrategy == 1 || cfg.rotationStrategy == 2
  }

  /** `setupLogging`: build the sink list, then the logger "main_logger" over it. */
  method SetupLogging(cfg: Settings) returns (plan: LoggerPlan)
    ensures plan.name == "main_logger"
    ensures plan.level == StringToLevel(cfg.level)
    ensures plan.flushOn == (if cfg.immediateFlush then Some(Trace) else None)
    ensures |plan.sinks| == (if cfg.logConsole then 1 else 0) + (if HasFileSink(cfg) then 1 else 0)
    ensures cfg.logConsole <==> |plan.sinks| > 0 && plan.sinks[0].kind.Console?
    ensures forall i :: 0 < i < |plan.sinks| ==> plan.sinks[i].kind.IsFile()
    ensures HasFileSink(cfg) <==> |plan.sinks| > 0 && plan.sinks[|plan.sinks| - 1].kind.IsFile()
    ensures cfg.rotationStrategy == 1 ==>
      plan.sinks[|plan.sinks| - 1].kind == Rotating(cfg.filename, cfg.maxSize * 1024, cfg.maxFiles, None)
    ensures cfg.rotationStrategy == 2 ==>
      plan.sinks[|plan.sinks| - 1].kind == Daily(cfg.filename, cfg.hour, cfg.minute, None)
    ensures !cfg.logConsole && !HasFileSink(cfg) ==> plan.sinks == []
    ensures forall s :: s in plan.sinks ==> s.pattern == Some(cfg.pattern) && s.level == None
  {
    var sinks: seq<SinkPlan> := [];
    if cfg.logConsole {
      var consoleSink := SinkPlan(Console, None, None);
      consoleSink := consoleSink.(pattern := Some(cfg.pattern));
      sinks := sinks + [consoleSink];
    }
    if cfg.rotationStrategy == 1 {
      // the configured size is in kilobytes; the sink takes bytes
      var fileSink := SinkPlan(Rotating(cfg.filename, cfg.maxSize * 1024, cfg.maxFiles, None), None, None);
      fileSink := fileSink.(pattern := Some(cfg.pattern));
      sinks := sinks + [fileSink];
    } else if cfg.rotationStrategy == 2 {
      var fileSink := SinkPlan(Daily(cfg.filename, cfg.hour, cfg.minute, None), None, None);
      fileSink := fileSink.(pattern := Some(cfg.pattern));
      sinks := sinks + [fileSink];
    }
    var logger := new Logger("main_logger", sinks);
    logger.SetLevel(StringToLevel(cfg.level));
    if cfg.immediateFlush {
      logger.FlushOn(Trace);
    }
    plan := logger.Plan();
  }
}
