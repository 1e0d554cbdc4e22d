# YaoLogit `logger.py` in Dafny

This project models `logger.py` of YaoLogit, a logging helper over loguru. It covers two things.

- **The singleton lifecycle of `MyLogger`.** The class keeps at most one instance in the class attribute `_instance`.
  - `initialize` creates and stores an instance only when the slot is empty. Otherwise it returns the stored object and ignores its arguments.
  - `remove_instance` empties the slot.
  - `get_info` reports `(name, log_dir, verbose)` of the stored instance, or `None`.
  - `get_logger` calls `initialize` (with `log_dir` defaulting to `"../logs"` and `verbose` to `False`) and returns the instance's logger. That logger is always loguru's one global logger.
- **The five-sink fan-out of `MyLogger.__init__`.** A non-verbose logger first removes every handler loguru has, including loguru's default standard-error handler. A verbose logger keeps them. Then one file sink per severity tier is appended, in ascending order DEBUG, INFO, WARNING, ERROR, CRITICAL. Each sink has its tier as its minimum level. Its path is `log_dir/TIER/<Prefix>_<name>_<YYYY-MM-DD>.log`, and the warning tier's prefix is `Warn`.

Modules, one per file:

- `Wrappers` (`wrappers.dfy`): `Option`, standing in for Python's `None`.
- `Dates` (`dates.dfy`): the date and its `%Y-%m-%d` rendering (`Format`), with an inverse `Parse`. The two are proved to be mutual inverses.
- `Sinks` (`sinks.dfy`): loguru's severities, the sink table `Sinks(logDir, name, today)`, and `ParseSink`, which recovers `(log_dir, tier, name, date)` from a sink. The table is proved to be in ascending severity with exact path shapes. The round trips prove that two different loggers, directories, days or tiers never build the same component list. Routing (`Receivers`, loguru's `level=` minimum) is proved to send a record to exactly the tiers at or below its level, which form a prefix of the table.
- `Loguru` (`loguru.dfy`): loguru's global logger, reduced to its ordered handler list. `remove()` empties the list and `add()` appends to it.
- `Os` (`os.dfy`): the set of existing directories, for `os.path.exists` and `os.makedirs`.
- `Logger` (`logger.dfy`): `MyLogger` (its constructor is `__init__`), `Singleton` (the class-level `_instance` slot), `GetLogger`, and `Demo`. `Demo` is the script at the bottom of the file. It proves the reports `aaa`, `aaa`, `None`, `ccc`. It also proves that the same logger comes back every time and that only `ccc`'s five sinks remain registered at the end.

Python has no mutable static fields in Dafny's sense. So the class attribute `_instance` becomes the field `instance` of a `Singleton` object. That object also holds the process-wide loguru logger and the file system. The instance's attributes never change after `__init__`, so they are `const` fields.

Paths are lists of components `[log_dir, TIER, file name]`, so the separator rules of `os.path.join` are not modelled. Dates are Python `datetime` dates: years 1 to 9999 and real days of the month.

The package describes itself as process-safe logging that creates only one logger instance per Python process, including subprocesses (yaologit/__init__.py:2-5, setup.py:17). `logger.py` keeps one instance within one process through its single slot. A second name is ignored once the slot is filled. It has no lock and nothing that coordinates across processes. So nothing in it stops a separately started or spawned worker process from building its own instance and registering its own sinks. This model follows `logger.py`. The package modules that would hold the richer behaviour, `yaologit/core.py` and `yaologit/config.py`, are not part of this model. The docstring of `__init__` says `verbose` defaults to `True`, but the signature says `False`. The model follows the signature.

## Model

| member | source | states |
|---|---|---|
| Dates.Format | logger.py:45 | `%Y-%m-%d` gives ten characters: four year digits, a dash, two month digits, a dash, two day digits. The result has no underscore. |
| Dates.ParseFormat | logger.py:45 | Parsing a rendered date gives back that date. |
| Dates.FormatParse | logger.py:45 | Every string that parses is exactly the rendering of the parsed date. So a day has exactly one spelling. |
| Dates.DecimalPad | logger.py:45 | A number below 10^w, zero-padded to w digits, reads back as itself. |
| Dates.PadDecimal | logger.py:45 | Any digit string is the zero-padded rendering of its own value, and that value fits its width. |
| Sinks.Sinks | logger.py:47-76 | Exactly five sinks. In order: `[log_dir, "DEBUG", "Debug_<name>_<today>.log"]` at DEBUG, then the INFO, WARNING (prefix `Warn`), ERROR and CRITICAL entries, each at its own level. Severities strictly ascend. |
| Sinks.SinkForRoundTrip | logger.py:48-72 | Parsing any tier's sink gives back the log directory, tier, logger name and date it was built from. |
| Sinks.ParseFileNameSound | logger.py:48-72 | A file name that parses for a tier is exactly `<Prefix>_<name>_<date>.log` for the parsed name and date. |
| Sinks.ParseSinkSound | logger.py:48-72 | Anything that parses as a sink is exactly the tier sink built from the parsed parts. |
| Sinks.SinkForInjective | logger.py:48-72 | Two sinks are equal only if directory, name, date and tier are all equal. So different loggers, directories, days or tiers never build the same component list (see `os.path.join` under Left out for what that means for files). |
| Sinks.Severity | logger.py:49-73 | loguru's numeric severities: TRACE 5, DEBUG 10, INFO 20, SUCCESS 25, WARNING 30, ERROR 40, CRITICAL 50. The contract bounds every level between TRACE's 5 and CRITICAL's 50. |
| Sinks.Receivers | logger.py:49-73 | The `level=` filter over a list of registrations: a record never reaches more sinks than are registered. Which sinks it reaches is `Sinks.ReceiversExactly`. |
| Sinks.ReceiversExactly | logger.py:49-73 | A record reaches a sink exactly when that sink is registered and its minimum level is at or below the record's severity. |
| Sinks.ReceiversAppend | logger.py:47-76 | Routing over two lists of registrations is routing over each, in order. Appending handlers never changes where earlier handlers' records go. |
| Sinks.ReceiversPrefix | logger.py:49-73 | Suppose the first k sinks accept a record and the rest reject it. Then the record reaches exactly those first k. |
| Sinks.Routing | logger.py:47-76 | A record reaches exactly the prefix of the table made of the tiers at or below its level. A DEBUG record reaches one file and a CRITICAL record reaches all five. |
| Sinks.TierOfDir | logger.py:48-72 | A directory name maps to a tier only if that tier's directory is that name. |
| Sinks.TierDirRoundTrip | logger.py:48-72 | Each tier's directory name maps back to the tier. |
| Loguru.Logger.constructor | logger.py:8 | Importing loguru leaves only the standard-error handler. |
| Loguru.Logger.Remove | logger.py:43-44 | `logger.remove()` leaves no handler. |
| Loguru.Logger.Add | logger.py:47-52 | `logger.add` appends one file handler at the end. |
| Os.Directories.Exists | logger.py:41 | True exactly when the directory exists. |
| Os.Directories.MakeDirs | logger.py:42 | Afterwards the directory exists, and nothing else changes. |
| Logger.Registered | logger.py:43-76 | The handler list after one construction. A verbose logger keeps the old list as a prefix. A non-verbose one keeps nothing, not even the standard-error handler. The given sinks follow, last and in order. |
| Logger.RegisteredInOrder | logger.py:47-76 | The five `add` calls in source order append exactly the sink table. |
| Logger.MyLogger.constructor | logger.py:28-77 | The fields equal the arguments. The log directory exists. The handler list is the old list (verbose) or empty (not verbose), followed by the five tier sinks. |
| Logger.Singleton.constructor | logger.py:19 | The slot starts empty. |
| Logger.Singleton.GetInfo | logger.py:85-88 | `None` exactly when no instance is stored. Otherwise the stored instance's name, log_dir and verbose. |
| Logger.Singleton.Initialize | logger.py:21-26 | With an instance stored, returns that same object and changes nothing: no handlers, no directories, same info. With the slot empty, stores and returns a fresh instance with the given configuration, and registers its sinks as the constructor does. |
| Logger.Singleton.RemoveInstance | logger.py:79-83 | The slot is empty afterwards, whatever it held, so the call is idempotent. Registered handlers and directories are unchanged. |
| Logger.GetLogger | logger.py:91-103 | Returns loguru's global logger, and the slot is filled afterwards. An existing instance is kept unchanged. Otherwise the new one reports the given name, `log_dir` (default `"../logs"`) and verbose (default false). |
| Logger.Demo | logger.py:106-114 | In a fresh process, with a clock reading per `get_logger` call, the script reports `aaa`, `aaa`, `None`, `ccc`. The first and last `get_logger` calls return the same logger. Only `ccc`'s five sinks, dated by its own call, are registered at the end. |

## Left out

- The clock. `datetime.now()` is the parameter `now`, and only its `strftime("%Y-%m-%d")` rendering is modelled.
- Dates.Format: pads every year to four digits. Some Python and C library combinations print years below 1000 without padding. That case is not distinguished.
- loguru's internals: message formatting, `encoding="utf-8"`, the background queue of `enqueue=True`, handler ids, and the file writes themselves. Only the list of registered handlers and the meaning of `level=` as a minimum severity are modelled.
- `os.path.join` separator handling. Paths are component lists. So the model keeps apart paths that the program merges. Different spellings of one directory (`"../logs"` and `"../logs/"`, `"logs"` and `"./logs"`) and names containing a separator (`"x/../Debug_y"`) can reach the same file, which `Sinks.SinkForInjective` does not rule out.
- `os.makedirs` creating missing parent directories. Only the requested directory is recorded.
- The tier directories `log_dir/TIER` and the log files that loguru's file-sink `add` creates. `Os.Directories.existing` records only logger.py's own `os.makedirs` call, so the constructor's statement about directories covers only that call.
- Exceptions. A failing `os.makedirs` or `logger.add` would leave `_instance` empty, and the model has no error path for these I/O failures.
- The `logger_1.info` and `logger_1.warning` calls at the end of the script (lines 115-116) write to files. Where each record goes is covered by `Sinks.Routing`. The writes themselves are not modelled.
- Threads and processes. `initialize` has no lock. Two threads can both find the slot empty. The model is sequential.
- The `yaologit` package: the process-safe singleton, file-lock coordination, rotation, retention, compression, `bind` and `session`. `yaologit/core.py` and `yaologit/config.py` are not part of this model.
- The example scripts, `setup.py` and `test_installation.py`. These are demos, packaging, and subprocess-driven installation checks.
