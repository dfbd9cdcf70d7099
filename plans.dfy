/** What a logger built from configuration consists of: its sinks, in dispatch order, with the
    arguments each sink was constructed with and the level and pattern set on it afterwards.
    Writing, formatting and rotation belong to the logging library and are not part of this model. */
module Plans {
  import opened Levels

  datatype Option<T> = None | Some(value: T)

  /** The kind of a sink and its constructor arguments. `append` is the fourth argument as the
      caller passed it, and None where the caller left it to the library's default. */
  datatype SinkKind =
    | Console
    | Rotating(path: string, maxBytes: int, maxFiles: int, append: Option<bool>)
    | Daily(path: string, hour: int, minute: int, append: Option<bool>)
  {
    predicate IsFile() {
      Rotating? || Daily?
    }
  }

  /** A sink with its own level (`set_level`) and pattern (`set_pattern`); None: never set. */
  datatype SinkPlan = SinkPlan(kind: SinkKind, level: Option<Level>, pattern: Option<string>)

  /** A logger's name, its own level, the level it flushes on (None: never set) and its sinks. */
  datatype LoggerPlan = LoggerPlan(name: string, level: Level, flushOn: Option<Level>, sinks: seq<SinkPlan>)

  /** An `spdlog::logger` object, whose state the builders overwrite and update in place.
      A freshly constructed logger has level Info and no flush level of its own. */
  class Logger {
    var name: string
    var level: Level
    var flushOn: Option<Level>
    var sinks: seq<SinkPlan>

    function Plan(): LoggerPlan
      reads this
    {
      LoggerPlan(name, level, flushOn, sinks)
    }

    /** `spdlog::logger(name, sinks.begin(), sinks.end())` */
    constructor (name: string, sinks: seq<SinkPlan>)
      ensures Plan() == LoggerPlan(name, Info, None, sinks)
    {
      this.name := name;
      this.level := Info;
      this.flushOn := None;
      this.sinks := sinks;
    }

    /** `logger = spdlog::logger(name, sink)`: the object takes the state of a fresh logger. */
    method Reset(name': string, sinks': seq<SinkPlan>)
      modifies this
      ensures Plan() == LoggerPlan(name', Info, None, sinks')
    {
      name, level, flushOn, sinks := name', Info, None, sinks';
    }

    /** `logger.set_level(l)`: only the logger's own level changes. */
    method SetLevel(l: Level)
      modifies this
      ensures Plan() == old(Plan()).(level := l)
    {
      level := l;
    }

    /** `logger.flush_on(l)`: only the flush level changes. */
    method FlushOn(l: Level)
      modifies this
      ensures Plan() == old(Plan()).(flushOn := Some(l))
    {
      flushOn := Some(l);
    }
  }
}
