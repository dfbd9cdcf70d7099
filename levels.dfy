/** spdlog's severity levels and the names by which the configuration files spell them. */
module Levels {
  import opened Ascii

  /** `spdlog::level::level_enum`, in increasing severity; `Err` is spdlog's `err`. */
  datatype Level = Trace | Debug | Info | Warn | Err | Critical | Off

  const AllLevels: seq<Level> := [Trace, Debug, Info, Warn, Err, Critical, Off]

  /** The configuration spelling of each level; `Err` is spelt "error". */
  function ConfigName(l: Level): string {
    match l
    case Trace => "trace"
    case Debug => "debug"
    case Info => "info"
    case Warn => "warn"
    case Err => "error"
    case Critical => "critical"
    case Off => "off"
  }

  /** The first level of `levels` spelt `name`, or Info when there is none. */
  function Lookup(name: string, levels: seq<Level>): (r: Level)
    ensures (r in levels && ConfigName(r) == name)
         || (r == Info && forall l :: l in levels ==> ConfigName(l) != name)
  {
    if levels == [] then Info
    else if ConfigName(levels[0]) == name then levels[0]
    else Lookup(name, levels[1..])
  }

  lemma AllLevelsComplete(l: Level)
    ensures l in AllLevels
  {
  }

  /** Reference meaning of a level name: the level spelt `name`, or Info for any other string. */
  function LevelNamed(name: string): (r: Level)
    ensures ConfigName(r) == name || (r == Info && forall l :: ConfigName(l) != name)
  {
    var r := Lookup(name, AllLevels);
    assert forall l :: ConfigName(l) == name ==> l in AllLevels by {
      forall l | ConfigName(l) == name ensures l in AllLevels { AllLevelsComplete(l); }
    }
    r
  }

  /** No two levels share a spelling. */
  lemma ConfigNameInjective(a: Level, b: Level)
    requires ConfigName(a) == ConfigName(b)
    ensures a == b
  {
  }

  /** Reading the spelling of a level gives that level back. */
  lemma LevelNamedRoundTrip(l: Level)
    ensures LevelNamed(ConfigName(l)) == l
  {
  }

  /** Every spelling is in lower case. */
  lemma ConfigNameIsLowercase(l: Level)
    ensures !HasUpper(ConfigName(l))
  {
  }
}
