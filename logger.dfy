/**
 * logger.py: the `MyLogger` singleton and `get_logger`.
 *
 * Python keeps the single instance in the class attribute `MyLogger._instance`.
 * Dafny has no mutable static fields, so that slot is the field `instance` of
 * a `Singleton` object, which also holds the process-wide collaborators the
 * class reaches: loguru's global logger and the file system. The clock is the
 * parameter `now`.
 */
module Logger {
  import opened Wrappers
  import Dates
  import Sinks
  import Loguru
  import Os

  /** What `get_info` reports: `(name, log_dir, verbose)`. */
  type Info = (string, string, bool)

  /**
   * The handler list after one construction: a non-verbose logger first
   * drops every handler, a verbose one keeps them; the file sinks follow.
   */
  function Registered(before: seq<Loguru.Handler>, verbose: bool, sinks: seq<Sinks.Sink>): (r: seq<Loguru.Handler>)
    ensures verbose ==> |r| == |before| + |sinks| && r[..|before|] == before
    ensures !verbose ==> |r| == |sinks| && Loguru.Stderr !in r
    ensures forall i :: 0 <= i < |sinks| ==> r[|r| - |sinks| + i] == Loguru.File(sinks[i])
  {
    (if verbose then before else []) + Loguru.FileHandlers(sinks)
  }

  /** Five `add` calls in tier order append exactly the sink table. */
  lemma RegisteredInOrder(kept: seq<Loguru.Handler>, handlers: seq<Loguru.Handler>,
                          logDir: string, name: string, today: string)
    requires handlers == kept + [Loguru.File(Sinks.SinkFor(logDir, name, today, Sinks.Debug))]
                              + [Loguru.File(Sinks.SinkFor(logDir, name, today, Sinks.Info))]
                              + [Loguru.File(Sinks.SinkFor(logDir, name, today, Sinks.Warning))]
                              + [Loguru.File(Sinks.SinkFor(logDir, name, today, Sinks.Error))]
                              + [Loguru.File(Sinks.SinkFor(logDir, name, today, Sinks.Critical))]
    ensures handlers == kept + Loguru.FileHandlers(Sinks.Sinks(logDir, name, today))
  {
  }

  /** An instance of `MyLogger`; its fields are set once, by `__init__`. */
  class MyLogger {
    const name: string
    const logDir: string
    const verbose: bool
    const logger: Loguru.Logger

    /** `MyLogger.__init__`: record the fields, create the directory, register the five tier sinks. */
    constructor(logger: Loguru.Logger, os: Os.Directories, now: Dates.Date,
                name: string, logDir: string, verbose: bool := false)
      requires Dates.Valid(now)
      modifies logger, os
      ensures this.name == name && this.logDir == logDir && this.verbose == verbose
      ensures this.logger == logger
      ensures os.existing == old(os.existing) + {logDir}
      ensures logger.handlers == Registered(old(logger.handlers), verbose, Sinks.Sinks(logDir, name, Dates.Format(now)))
    {
      this.name := name;
      this.logDir := logDir;
      this.verbose := verbose;
      this.logger := logger;
      new;
      var present := os.Exists(logDir);
      if !present {
        os.MakeDirs(logDir);
      }
      if !verbose {
        logger.Remove();
      }
      ghost var kept := logger.handlers;
      var today := Dates.Format(now);
      logger.Add(Sinks.SinkFor(logDir, name, today, Sinks.Debug));
      logger.Add(Sinks.SinkFor(logDir, name, today, Sinks.Info));
      logger.Add(Sinks.SinkFor(logDir, name, today, Sinks.Warning));
      logger.Add(Sinks.SinkFor(logDir, name, today, Sinks.Error));
      logger.Add(Sinks.SinkFor(logDir, name, today, Sinks.Critical));
      RegisteredInOrder(kept, logger.handlers, logDir, name, today);
    }
  }

  /** The class-level state of `MyLogger`: the `_instance` slot and the globals it uses. */
  class Singleton {
    var instance: MyLogger?
    const logger: Loguru.Logger
    const os: Os.Directories

    /** A stored instance logs through the global loguru logger. */
    ghost predicate Valid()
      reads this
    {
      instance != null ==> instance.logger == logger
    }

    /** The slot as the class definition leaves it: empty. */
    constructor(logger: Loguru.Logger, os: Os.Directories)
      ensures Valid() && instance == null
      ensures this.logger == logger && this.os == os
    {
      this.logger := logger;
      this.os := os;
      instance := null;
    }

    /** `MyLogger.get_info`: the stored instance's configuration, `None` when the slot is empty. */
    function GetInfo(): (r: Option<Info>)
      reads this
      ensures r.None? <==> instance == null
      ensures instance != null ==> r.value.0 == instance.name && r.value.1 == instance.logDir && r.value.2 == instance.verbose
    {
      if instance != null then Some((instance.name, instance.logDir, instance.verbose)) else None
    }

    /**
     * `MyLogger.initialize`: the first call creates and stores the instance;
     * every later call returns that same object and ignores its arguments.
     */
    method Initialize(now: Dates.Date, name: string, logDir: string, verbose: bool := false) returns (r: MyLogger)
      requires Valid() && Dates.Valid(now)
      modifies this, logger, os
      ensures Valid() && instance == r
      ensures old(instance) != null ==> r == old(instance) && GetInfo() == old(GetInfo()) && unchanged(logger, os)
      ensures old(instance) == null ==> fresh(r) && GetInfo() == Some((name, logDir, verbose))
      ensures old(instance) == null ==>
        logger.handlers == Registered(old(logger.handlers), verbose, Sinks.Sinks(logDir, name, Dates.Format(now)))
        && os.existing == old(os.existing) + {logDir}
    {
      if instance != null {
        return instance;
      }
      instance := new MyLogger(logger, os, now, name, logDir, verbose);
      r := instance;
    }

    /** `MyLogger.remove_instance`: empties the slot; the registered handlers stay. */
    method RemoveInstance()
      requires Valid()
      modifies this
      ensures Valid() && instance == null && GetInfo() == None
      ensures unchanged(logger, os)
    {
      instance := null;
    }
  }

  /** `get_logger`: initialise the singleton if need be and hand back its (global) logger. */
  method GetLogger(cls: Singleton, now: Dates.Date, name: string,
                   logDir: string := "../logs", verbose: bool := false) returns (l: Loguru.Logger)
    requires cls.Valid() && Dates.Valid(now)
    modifies cls, cls.logger, cls.os
    ensures cls.Valid() && l == cls.logger && cls.instance != null
    ensures old(cls.instance) != null ==>
      cls.instance == old(cls.instance) && cls.GetInfo() == old(cls.GetInfo()) && unchanged(cls.logger, cls.os)
    ensures old(cls.instance) == null ==>
      cls.GetInfo() == Some((name, logDir, verbose))
      && cls.logger.handlers == Registered(old(cls.logger.handlers), verbose, Sinks.Sinks(logDir, name, Dates.Format(now)))
      && cls.os.existing == old(cls.os.existing) + {logDir}
  {
    var inst := cls.Initialize(now, name, logDir, verbose);
    l := inst.logger;
  }

  /**
   * The script at the end of logger.py (lines 106-114), run in a fresh
   * process: the reports of `get_info` after each step, whether the first and
   * last `get_logger` calls handed back the same logger, and loguru's handler
   * list at the end. Only the last logger's five sinks remain, because its
   * non-verbose construction removed the first logger's. Each `get_logger`
   * call reads the clock afresh, so each call gets its own date.
   */
  method Demo(now1: Dates.Date, now2: Dates.Date, now3: Dates.Date, existing: set<string>)
    returns (infos: seq<Option<Info>>, sameLogger: bool, handlers: seq<Loguru.Handler>)
    requires Dates.Valid(now1) && Dates.Valid(now2) && Dates.Valid(now3)
    ensures infos == [Some(("aaa", "../logs", false)), Some(("aaa", "../logs", false)), None, Some(("ccc", "../logs", false))]
    ensures sameLogger
    ensures handlers == Loguru.FileHandlers(Sinks.Sinks("../logs", "ccc", Dates.Format(now3)))
  {
    var loguru := new Loguru.Logger();
    var os := new Os.Directories(existing);
    var cls := new Singleton(loguru, os);
    var logger1 := GetLogger(cls, now1, "aaa", logDir := "../logs");
    var info1 := cls.GetInfo();
    var logger2 := GetLogger(cls, now2, "bbb", logDir := "../logs");
    var info2 := cls.GetInfo();
    cls.RemoveInstance();
    var info3 := cls.GetInfo();
    var logger3 := GetLogger(cls, now3, "ccc", logDir := "../logs");
    var info4 := cls.GetInfo();
    infos := [info1, info2, info3, info4];
    sameLogger := logger1 == logger3;
    handlers := loguru.handlers;
  }
}
