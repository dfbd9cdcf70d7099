# Logger construction from configuration

This project models the part of the repository that is its own logic: turning configuration
values into a logger for the spdlog library. There are two builders, one per test program.

- `subproject4/src/main.cpp` reads flat values from a configuration singleton. It parses the
  level name by exact match (`stringToLevel`). `setupLogging` then builds an ordered sink list:
  an optional console sink, then at most one file sink chosen by an integer strategy. Over that
  list it constructs the logger `main_logger` and sets its level and flush level.
- `subproject4_yaml/src/simple_log.cpp` reads the `file` section of a YAML document. Its
  `stringToLevel` lowers the string first, so matching ignores case. `createFromConfig` applies
  defaults to the absent keys `filename`, `append`, `rotation_strategy`, `hour`, `minute`,
  `max_size` and `max_files`. For the strategy "time" or "size" it builds a daily or a
  size-rotating sink. It sets `level` and `pattern` on that sink only when they are present.
  Then it overwrites the caller's logger object with a logger named `main` over that one sink.
  For any other strategy string it builds no sink and keeps the logger's name and sinks. In
  every successful case it sets the logger's level to info and returns true; otherwise it
  returns false.

Modules, one per concern:

- `Ascii` (ascii.dfy): C `tolower` in the "C" locale and lowering a whole string.
- `Levels` (levels.dfy): the seven spdlog levels, their configuration spellings, and
  `LevelNamed`, the reference meaning of a level name that both parsers are proved against.
- `Plans` (plans.dfy): value descriptions of sinks and loggers, and the class `Logger`, the
  spdlog logger object that the builders update in place.
- `MainLogging` (main_logging.dfy): `subproject4/src/main.cpp`.
- `SimpleLog` (simple_log.dfy): `subproject4_yaml/src/simple_log.cpp`.
- `ParserAgreement` (parser_agreement.dfy): how the two parsers relate.

A YAML key is modelled as `Field<T>`: absent, present and convertible, or present but not
convertible to the wanted type. A key read with a fallback (`as<T>(fallback)`: `enabled`,
`filename`, `append`) takes the fallback when absent or not convertible. A key read without a
fallback (every other key, each read only when present) throws when it does not convert. The
exception is caught, and the function returns false with the logger untouched. A document that
cannot be loaded or parsed is `Document.Unloadable`, which also gives false.

Two facts about the code that the model keeps:
- `createFromConfig` does no range check on hour or minute, and a missing hour or minute is 0.
- `setupLogging` chooses the strategy by the integers 1 (size) and 2 (daily). Any other value
  adds no file sink.

Each rotating or daily sink in the YAML builder gets the value named `append` as its fourth
constructor argument. The model records that value as given (`Some(append)`). In the library
that position is "rotate on open" and "truncate", not "append". The library is not part of
this model, so what the flag does once the file is open is not modelled.

## Model

| member | source | states |
|---|---|---|
| `Ascii.Lower` | subproject4_yaml/src/simple_log.cpp:15-16 | lowering keeps the length, maps each character through `tolower`, and leaves no upper-case letter |
| `Ascii.LowerFixesLowercase` | subproject4_yaml/src/simple_log.cpp:16 | a string without upper-case letters is unchanged by lowering |
| `Levels.LevelNamed` | subproject4/src/main.cpp:21-28 | a name gives the level spelt that way, and any string that spells no level gives info |
| `Levels.ConfigNameInjective` | subproject4/src/main.cpp:21-27 | no two levels share a spelling, so at most one branch of the match can fire |
| `Levels.LevelNamedRoundTrip` | subproject4/src/main.cpp:21-27 | the spelling of every level parses back to that level; "error" parses to err |
| `Levels.ConfigNameIsLowercase` | subproject4/src/main.cpp:21-27 | every accepted spelling is all lower case |
| `MainLogging.StringToLevel` | subproject4/src/main.cpp:20-29 | exact, case-sensitive matching: a spelling gives its level, anything else gives info |
| `MainLogging.UppercaseIsInfo` | subproject4/src/main.cpp:20-28 | any string with an upper-case letter, such as "WARN", gives info |
| `MainLogging.SetupLogging` | subproject4/src/main.cpp:32-121 | logger `main_logger` with the parsed level; flush level trace if and only if `immediate_flush`; at most two sinks; a console sink first if and only if `log_console`; strategy 1 adds a size-rotating sink of `max_size * 1024` bytes and `max_files` files, strategy 2 a daily sink at `hour:minute`, any other value no file sink; with no console and no file sink the list is empty; every sink carries `pattern` and no level of its own |
| `Plans.Logger.constructor` | subproject4/src/main.cpp:100 | a new logger has the given name and sinks, level info and no flush level |
| `Plans.Logger.Reset` | subproject4_yaml/src/simple_log.cpp:95 | assigning a new logger replaces name and sinks and resets level and flush level |
| `Plans.Logger.SetLevel` | subproject4_yaml/src/simple_log.cpp:142 | only the logger's own level changes |
| `Plans.Logger.FlushOn` | subproject4/src/main.cpp:107-109 | only the flush level changes |
| `SimpleLog.StringToLevel` | subproject4_yaml/src/simple_log.cpp:14-27 | the result is the level whose spelling equals the lowered input, and info when there is none |
| `SimpleLog.AnyCasingParses` | subproject4_yaml/src/simple_log.cpp:15-24 | any casing of a level's spelling parses to that level |
| `SimpleLog.ParseIgnoresCase` | subproject4_yaml/src/simple_log.cpp:15-26 | strings of equal length whose characters agree after `tolower` parse to the same level |
| `SimpleLog.ConfigureSink` | subproject4_yaml/src/simple_log.cpp:86-92 | a present `level` is parsed and set on the sink, a present `pattern` is set on it, the sink kind is unchanged, and an unconvertible `level` or `pattern` is a failure |
| `SimpleLog.CreateFromConfig` | subproject4_yaml/src/simple_log.cpp:30-166 | false when there is no loadable document, no `file` section, or `enabled` is false (a missing `enabled` counts as true); otherwise false exactly when a key the chosen strategy reads does not convert; on false the logger is untouched; on true the level is info; strategy "time" (default "size") gives logger `main` with one daily sink at hour and minute (each default 0); "size" gives one rotating sink of `max_size` bytes (default 5 MiB) and `max_files` files (default 5); filename defaults to "logs/app.log" and append to true; any other strategy leaves name and sinks unchanged |
| `ParserAgreement.AgreeOnLowercase` | subproject4/src/main.cpp:21-28 | on strings without upper-case letters the exact parser agrees with the YAML one |
| `ParserAgreement.DisagreementNeedsUppercase` | subproject4/src/main.cpp:20-28 | when the two parsers differ, the input has an upper-case letter and the exact parser gave info |
| `ParserAgreement.UppercaseWarn` | subproject4/src/main.cpp:24 | "WARN" is warn to the YAML parser and info to the exact one |

## Left out

- The library's sinks (writing, pattern formatting, level filtering, size and daily rotation) are library code that is not part of this model. A sink is described only by its constructor arguments and the level and pattern set on it.
- Loading the YAML file and reading the configuration singleton are not modelled. Their results are inputs: a `Document` value and a `Settings` record. The singleton's class is not part of this model.
- `fs::create_directories` for the log file's parent directory is a filesystem side effect. The model assumes it succeeds; if it fails, the source returns false.
- Exceptions thrown by sink constructors are not modelled. For example, a file cannot be opened, or the daily sink rejects an hour outside 0..23 or a minute outside 0..59. The model assumes construction succeeds. In the source such a throw makes `createFromConfig` return false, and makes `setupLogging` return false before the logger is built.
- MainLogging.SetupLogging: it returns the logger description rather than the source's boolean. Its only false paths are exceptions from the sink constructors or from the configuration getters, and neither is modelled. Registering the logger as the process default (`set_default_logger`) and the start-up messages are also left out.
- MainLogging.SetupLogging: `max_size * 1024` is computed in unbounded integers. The C `int` overflow for sizes over about 2 GiB is not modelled. Neither is the conversion of negative `max_size` and `max_files` to the library's unsigned size type.
- The error handler that `createFromConfig` installs, `spdlog::shutdown`, and all console and stderr printing are process-wide state or I/O.
- Locking in the thread-safe sinks is concurrency and is not modelled.
- That a flush level of trace makes every record flush is library behaviour. The model records only the flush level that was set.
- The test harnesses (`subproject1/src/1_basic_include.cpp`, `subproject3/src/3_fileslog.cpp`, `subproject4_yaml/src/main.cpp`, and `main` in `subproject4/src/main.cpp`) contain sleep loops, pauses, code-page set-up and formatting, and no logic of their own.
- Sinks are values in the model. The source holds them through `std::shared_ptr`, but no sink is shared between loggers here, so aliasing has no visible effect.
