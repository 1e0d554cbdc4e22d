/**
 * The five file sinks that constructing a logger registers (logger.py lines
 * 47-76): one per severity tier, each a path `log_dir / TIER / <Prefix>_<name>_<today>.log`
 * with the tier as its minimum level. A path is kept as its list of components
 * `[log_dir, TIER, file name]`, so the separator rules of `os.path.join` stay
 * out of the model.
 */
module Sinks {
  import opened Wrappers
  import Dates

  /** loguru's standard severities; the five sink tiers and two record-only levels. */
  datatype Level = Trace | Debug | Info | Success | Warning | Error | Critical

  /** loguru's numeric severity of each level. */
  function Severity(l: Level): (r: nat)
    ensures 5 <= r <= 50
  {
    match l
    case Trace => 5
    case Debug => 10
    case Info => 20
    case Success => 25
    case Warning => 30
    case Error => 40
    case Critical => 50
  }

  /** The levels that own a file tier. */
  predicate IsTier(l: Level) {
    l != Trace && l != Success
  }

  /** The tiers in the order the sinks are registered. */
  const Tiers: seq<Level> := [Debug, Info, Warning, Error, Critical]

  /** The tier's sub-directory under the log directory. */
  function TierDir(t: Level): string
    requires IsTier(t)
  {
    match t
    case Debug => "DEBUG"
    case Info => "INFO"
    case Warning => "WARNING"
    case Error => "ERROR"
    case Critical => "CRITICAL"
  }

  /** The start of the tier's file names, up to the logger name; the warning tier's is "Warn_". */
  function FilePrefix(t: Level): string
    requires IsTier(t)
  {
    match t
    case Debug => "Debug_"
    case Info => "Info_"
    case Warning => "Warn_"
    case Error => "Error_"
    case Critical => "Critical_"
  }

  function TierOfDir(dir: string): (r: Option<Level>)
    ensures r.Some? ==> IsTier(r.value) && TierDir(r.value) == dir
  {
    if dir == "DEBUG" then Some(Debug)
    else if dir == "INFO" then Some(Info)
    else if dir == "WARNING" then Some(Warning)
    else if dir == "ERROR" then Some(Error)
    else if dir == "CRITICAL" then Some(Critical)
    else None
  }

  /** One `logger.add(path, level=...)` registration. */
  datatype Sink = Sink(path: seq<string>, level: Level)

  function FileName(t: Level, name: string, today: string): string
    requires IsTier(t)
  {
    FilePrefix(t) + name + "_" + today + ".log"
  }

  function SinkFor(logDir: string, name: string, today: string, t: Level): Sink
    requires IsTier(t)
  {
    Sink([logDir, TierDir(t), FileName(t, name, today)], t)
  }

  /** The sinks registered for logger `name` writing under `logDir` on day `today`. */
  function Sinks(logDir: string, name: string, today: string): (r: seq<Sink>)
    ensures |r| == 5
    ensures r[0] == Sink([logDir, "DEBUG", "Debug_" + name + "_" + today + ".log"], Debug)
    ensures r[1] == Sink([logDir, "INFO", "Info_" + name + "_" + today + ".log"], Info)
    ensures r[2] == Sink([logDir, "WARNING", "Warn_" + name + "_" + today + ".log"], Warning)
    ensures r[3] == Sink([logDir, "ERROR", "Error_" + name + "_" + today + ".log"], Error)
    ensures r[4] == Sink([logDir, "CRITICAL", "Critical_" + name + "_" + today + ".log"], Critical)
    ensures forall i, j :: 0 <= i < j < |r| ==> Severity(r[i].level) < Severity(r[j].level)
  {
    seq(|Tiers|, i requires 0 <= i < |Tiers| => SinkFor(logDir, name, today, Tiers[i]))
  }

  /** What a sink path encodes: the log directory, the tier, the logger name and the day. */
  datatype SinkKey = SinkKey(logDir: string, tier: Level, name: string, date: Dates.Date)

  /** Splits `<Prefix>_<name>_<date>.log` for tier `t`; the date has a fixed width of ten. */
  function ParseFileName(t: Level, file: string): Option<(string, Dates.Date)>
    requires IsTier(t)
  {
    var head := FilePrefix(t);
    var n := |file|;
    if n < |head| + 15 || file[..|head|] != head || file[n - 15] != '_' || file[n - 4..] != ".log" then None
    else match Dates.Parse(file[n - 14..n - 4])
      case Some(d) => Some((file[|head|..n - 15], d))
      case None => None
  }

  /** Recovers what a registration names; `None` for anything not shaped like a tier sink. */
  function ParseSink(s: Sink): Option<SinkKey> {
    if |s.path| != 3 then None
    else match TierOfDir(s.path[1])
      case None => None
      case Some(t) =>
        if t != s.level then None
        else match ParseFileName(t, s.path[2])
          case None => None
          case Some((name, d)) => Some(SinkKey(s.path[0], t, name, d))
  }

  lemma TierDirRoundTrip(t: Level)
    requires IsTier(t)
    ensures TierOfDir(TierDir(t)) == Some(t)
  {
  }

  /** Every sink path names back the logger, tier, directory and day it was built from. */
  lemma SinkForRoundTrip(logDir: string, name: string, d: Dates.Date, t: Level)
    requires IsTier(t) && Dates.Valid(d)
    ensures ParseSink(SinkFor(logDir, name, Dates.Format(d), t)) == Some(SinkKey(logDir, t, name, d))
  {
    var today := Dates.Format(d);
    var head := FilePrefix(t);
    var file := FileName(t, name, today);
    var n := |file|;
    assert file == head + name + "_" + today + ".log";
    assert n == |head| + |name| + 15;
    assert file[..|head|] == head;
    assert file[n - 15] == '_';
    assert file[n - 4..] == ".log";
    assert file[n - 14..n - 4] == today;
    assert file[|head|..n - 15] == name;
    Dates.ParseFormat(d);
    TierDirRoundTrip(t);
  }

  /** A string cut at the five places where a tier file name changes part. */
  lemma SplitFileName(file: string, h: nat)
    requires h + 15 <= |file|
    ensures file == file[..h] + file[h..|file| - 15] + [file[|file| - 15]] + file[|file| - 14..|file| - 4] + file[|file| - 4..]
  {
  }

  lemma ParseFileNameSound(t: Level, file: string, name: string, d: Dates.Date)
    requires IsTier(t) && ParseFileName(t, file) == Some((name, d))
    ensures Dates.Valid(d) && file == FileName(t, name, Dates.Format(d))
  {
    var head := FilePrefix(t);
    var n := |file|;
    var today := file[n - 14..n - 4];
    assert file[..|head|] == head && [file[n - 15]] == "_" && file[n - 4..] == ".log";
    assert name == file[|head|..n - 15] && Dates.Parse(today) == Some(d);
    Dates.FormatParse(today, d);
    SplitFileName(file, |head|);
  }

  /** Conversely, whatever parses as a sink is exactly the sink built from its parts. */
  lemma ParseSinkSound(s: Sink, k: SinkKey)
    requires ParseSink(s) == Some(k)
    ensures IsTier(k.tier) && Dates.Valid(k.date)
    ensures s == SinkFor(k.logDir, k.name, Dates.Format(k.date), k.tier)
  {
    var t := k.tier;
    assert TierOfDir(s.path[1]) == Some(t) && s.level == t;
    assert ParseFileName(t, s.path[2]) == Some((k.name, k.date));
    ParseFileNameSound(t, s.path[2], k.name, k.date);
    assert s.path == [s.path[0], s.path[1], s.path[2]];
  }

  /**
   * Distinct loggers, directories, days or tiers never build the same
   * component list: a sink determines everything it was built from.
   */
  lemma SinkForInjective(logDir1: string, name1: string, d1: Dates.Date, t1: Level,
                         logDir2: string, name2: string, d2: Dates.Date, t2: Level)
    requires IsTier(t1) && Dates.Valid(d1) && IsTier(t2) && Dates.Valid(d2)
    requires SinkFor(logDir1, name1, Dates.Format(d1), t1) == SinkFor(logDir2, name2, Dates.Format(d2), t2)
    ensures logDir1 == logDir2 && name1 == name2 && d1 == d2 && t1 == t2
  {
    SinkForRoundTrip(logDir1, name1, d1, t1);
    SinkForRoundTrip(logDir2, name2, d2, t2);
  }

  /** A sink registered with `level=` takes records of that severity or above. */
  predicate Accepts(s: Sink, record: Level) {
    Severity(s.level) <= Severity(record)
  }

  /** The sinks that a record of level `record` is written to, in registration order. */
  function Receivers(sinks: seq<Sink>, record: Level): (r: seq<Sink>)
    ensures |r| <= |sinks|
  {
    if sinks == [] then []
    else (if Accepts(sinks[0], record) then [sinks[0]] else []) + Receivers(sinks[1..], record)
  }

  /** A record reaches a sink exactly when the sink is registered and accepts its level. */
  lemma {:induction false} ReceiversExactly(sinks: seq<Sink>, record: Level)
    ensures forall s :: s in Receivers(sinks, record) <==> s in sinks && Accepts(s, record)
  {
    if sinks != [] {
      ReceiversExactly(sinks[1..], record);
      assert sinks == [sinks[0]] + sinks[1..];
    }
  }

  /** How many of the five tiers are at or below `record`. */
  function TiersAtOrBelow(record: Level): nat {
    match record
    case Trace => 0
    case Debug => 1
    case Info => 2
    case Success => 2
    case Warning => 3
    case Error => 4
    case Critical => 5
  }

  lemma ReceiversCons(first: Sink, rest: seq<Sink>, record: Level)
    ensures Receivers([first] + rest, record)
         == (if Accepts(first, record) then [first] else []) + Receivers(rest, record)
  {
    assert ([first] + rest)[1..] == rest;
  }

  lemma {:induction false} ReceiversAppend(front: seq<Sink>, back: seq<Sink>, record: Level)
    ensures Receivers(front + back, record) == Receivers(front, record) + Receivers(back, record)
  {
    if front == [] {
      assert front + back == back;
    } else {
      var first, tail := front[0], front[1..];
      assert front == [first] + tail;
      assert front + back == [first] + (tail + back);
      ReceiversCons(first, tail, record);
      ReceiversCons(first, tail + back, record);
      ReceiversAppend(tail, back, record);
    }
  }

  lemma {:induction false} ReceiversAll(sinks: seq<Sink>, record: Level)
    requires forall s :: s in sinks ==> Accepts(s, record)
    ensures Receivers(sinks, record) == sinks
  {
    if sinks != [] {
      ReceiversAll(sinks[1..], record);
    }
  }

  lemma {:induction false} ReceiversNone(sinks: seq<Sink>, record: Level)
    requires forall s :: s in sinks ==> !Accepts(s, record)
    ensures Receivers(sinks, record) == []
  {
    if sinks != [] {
      ReceiversNone(sinks[1..], record);
    }
  }

  /** If exactly the first `k` sinks accept a record, the record reaches exactly those. */
  lemma ReceiversPrefix(sinks: seq<Sink>, record: Level, k: nat)
    requires k <= |sinks|
    requires forall i :: 0 <= i < k ==> Accepts(sinks[i], record)
    requires forall i :: k <= i < |sinks| ==> !Accepts(sinks[i], record)
    ensures Receivers(sinks, record) == sinks[..k]
  {
    assert sinks == sinks[..k] + sinks[k..];
    ReceiversAppend(sinks[..k], sinks[k..], record);
    ReceiversAll(sinks[..k], record);
    ReceiversNone(sinks[k..], record);
  }

  /**
   * Because the tiers are registered in ascending severity, a record reaches
   * exactly a prefix of the table: every tier at or below its level.
   */
  lemma Routing(logDir: string, name: string, today: string, record: Level)
    ensures Receivers(Sinks(logDir, name, today), record) == Sinks(logDir, name, today)[..TiersAtOrBelow(record)]
  {
    var sinks := Sinks(logDir, name, today);
    ReceiversPrefix(sinks, record, TiersAtOrBelow(record));
  }
}
