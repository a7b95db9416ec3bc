/** The zap-backed logger: one sub-logger per level from the configured one up to "error", each
    writing to its own rotated file "<dir><level>.log"; every logging call is forwarded to all
    of them in order. Duration parsing and the clock are inputs. */
module LogZap {
  import opened Wrappers
  import opened Seqs
  import opened Strings
  import LogOption
  import LogRotate

  const Levels: seq<string> := ["debug", "info", "warn", "error"]

  /** zap's levels, as integers. */
  const DebugLevel := -1
  const InfoLevel := 0
  const WarnLevel := 1
  const ErrorLevel := 2

  /** fileLevels: the levels from `level` on; None stands for the panic on an unknown level. */
  function FileLevels(level: string): (r: Option<seq<string>>)
    ensures r.Some? <==> level in Levels
    ensures r.Some? ==> 0 < |r.value| <= |Levels| && r.value[0] == level && r.value == Levels[|Levels| - |r.value|..]
  {
    FileLevelsFrom(level, 0)
  }

  /** The search loop of fileLevels, from position i. */
  function FileLevelsFrom(level: string, i: nat): (r: Option<seq<string>>)
    requires i <= |Levels|
    ensures r.Some? <==> level in Levels[i..]
    ensures r.Some? ==> 0 < |r.value| <= |Levels| && r.value[0] == level && r.value == Levels[|Levels| - |r.value|..]
    decreases |Levels| - i
  {
    if i == |Levels| then None
    else if Levels[i] == level then Some(Levels[i..])
    else
      assert Levels[i..] == [Levels[i]] + Levels[i + 1..];
      FileLevelsFrom(level, i + 1)
  }

  /** The four level names differ in their first letter. */
  lemma LevelsDistinct(i: nat, j: nat)
    requires i < |Levels| && j < |Levels| && Levels[i] == Levels[j]
    ensures i == j
  {
    assert Levels[0][0] == 'd' && Levels[1][0] == 'i' && Levels[2][0] == 'w' && Levels[3][0] == 'e';
  }

  /** Each supported level selects its own file and every more severe one. */
  lemma FileLevelsOf(k: nat)
    requires k < |Levels|
    ensures FileLevels(Levels[k]) == Some(Levels[k..])
  {
    var r := FileLevels(Levels[k]).value;
    assert Levels[|Levels| - |r|] == r[0];
    LevelsDistinct(|Levels| - |r|, k);
  }

  /** An unsupported level, such as "fatal", makes fileLevels panic. */
  lemma FatalUnsupported()
    ensures FileLevels("fatal") == None
  {
    assert Levels[0][0] == 'd' && Levels[1][0] == 'i' && Levels[2][0] == 'w' && Levels[3][0] == 'e';
  }

  /** zapLevel: the four names map to zap's levels in order; any other name misses the map and
      gives the zero level, InfoLevel. */
  function ZapLevel(level: string): (l: int)
    ensures forall i :: 0 <= i < |Levels| && Levels[i] == level ==> l == i - 1
    ensures level !in Levels ==> l == InfoLevel
  {
    if level == "debug" then DebugLevel
    else if level == "info" then InfoLevel
    else if level == "warn" then WarnLevel
    else if level == "error" then ErrorLevel
    else InfoLevel
  }

  /** parseDuration; `parse` stands for time.ParseDuration, and None for a panic. "" is zero;
      any 'd' turns every 'd' into 'h' and multiplies the parsed value by 24. */
  function ParseDuration(s: string, parse: string -> Option<int>): (d: Option<int>)
    ensures s == "" ==> d == Some(0)
    ensures s != "" && 'd' !in s ==> d == parse(s)
  {
    if s == "" then Some(0)
    else
      var hour := if 'd' in s then 24 else 1;
      var t := if 'd' in s then ReplaceChar(s, 'd', 'h') else s;
      match parse(t)
      case None => None
      case Some(v) => Some(v * hour)
  }

  /** A count of days is 24 times the same count of hours. */
  lemma DaysAreHours(n: string, parse: string -> Option<int>)
    requires 'd' !in n
    ensures ParseDuration(n + "d", parse).Some? <==> ParseDuration(n + "h", parse).Some?
    ensures ParseDuration(n + "d", parse).Some? ==>
              ParseDuration(n + "d", parse).value == 24 * ParseDuration(n + "h", parse).value
  {
    assert (n + "d")[|n|] == 'd';
    assert 'd' !in n + "h";
    assert ReplaceChar(n + "d", 'd', 'h') == n + "h";
    match parse(n + "h")
    case None =>
    case Some(v) =>
      assert ParseDuration(n + "h", parse) == Some(v);
      assert ParseDuration(n + "d", parse) == Some(v * 24);
  }

  /** Any text with a 'd' is read with every 'd' turned into 'h', which leaves no 'd' and keeps
      every other character, and the value is scaled by 24: it parses exactly when the
      rewritten text does. */
  lemma DaysRewritten(s: string, parse: string -> Option<int>)
    requires 'd' in s
    ensures var t := ReplaceChar(s, 'd', 'h');
            'd' !in t && |t| == |s| &&
            (forall i :: 0 <= i < |s| && s[i] != 'd' ==> t[i] == s[i]) &&
            (ParseDuration(s, parse).Some? <==> parse(t).Some?) &&
            (parse(t).Some? ==> ParseDuration(s, parse).value == 24 * parse(t).value)
  {
    assert s != "";
  }

  /** Mixed units are scaled as a whole: "1d12h" reads as "1h12h" times 24, 312 hours, not
      36 hours, given that time.ParseDuration reads "1h12h" as 13 hours. */
  lemma MixedUnitsScaledWhole(parse: string -> Option<int>)
    requires parse("1h12h") == Some(13 * LogRotate.Hour)
    ensures ParseDuration("1d12h", parse) == Some(312 * LogRotate.Hour)
  {
    DaysRewritten("1d12h", parse);
    assert ReplaceChar("1d12h", 'd', 'h') == "1h12h";
  }

  /** "7d" is 168 hours, given that time.ParseDuration reads "7h" as 7 hours. */
  lemma SevenDays(parse: string -> Option<int>)
    requires parse("7h") == Some(7 * LogRotate.Hour)
    ensures ParseDuration("7d", parse) == Some(168 * LogRotate.Hour)
  {
    assert "7" + "d" == "7d" && "7" + "h" == "7h";
    DaysAreHours("7", parse);
  }

  /** A sub-logger: its file, its zap level, and the rotate file it writes through. */
  datatype SubLogger = SubLogger(file: string, level: int, out: LogRotate.State)

  /** The sub-logger NewLogger builds for one level. */
  function SubLoggerFor(dirPath: string, level: string, rotateTime: int, backTime: int, now: int): (sub: SubLogger)
    ensures sub.file == dirPath + level + ".log" && sub.out.curFn == sub.file && sub.out.lastRotateTime == now
  {
    var file := dirPath + level + ".log";
    SubLogger(file, ZapLevel(level),
              LogRotate.Fresh(file, [LogRotate.WithRotateTime(rotateTime), LogRotate.WithBackTime(backTime)], now))
  }

  /** One sub-logger per level, in order; `clock(i)` is the instant NewRotateFile reads for
      the i-th level's file. */
  function SubLoggers(dirPath: string, levels: seq<string>, rotateTime: int, backTime: int, clock: nat -> int): (subs: seq<SubLogger>)
    ensures |subs| == |levels|
    ensures forall i :: 0 <= i < |levels| ==> subs[i].file == dirPath + levels[i] + ".log"
    ensures forall i :: 0 <= i < |levels| ==> subs[i].out.lastRotateTime == clock(i)
  {
    var subs := seq(|levels|, i requires 0 <= i < |levels| => SubLoggerFor(dirPath, levels[i], rotateTime, backTime, clock(i)));
    assert forall i :: 0 <= i < |levels| ==> subs[i] == SubLoggerFor(dirPath, levels[i], rotateTime, backTime, clock(i));
    subs
  }

  /** Each sub-logger's rotate file rotates on the configured duration, or daily when it is
      zero, and keeps backups for the configured back time, or a week when it is zero. */
  lemma SubLoggerRotation(dirPath: string, level: string, rotateTime: int, backTime: int, now: int)
    ensures SubLoggerFor(dirPath, level, rotateTime, backTime, now).out.rotateTime ==
              (if rotateTime == 0 then LogRotate.Day else rotateTime)
    ensures SubLoggerFor(dirPath, level, rotateTime, backTime, now).out.backTime ==
              (if backTime == 0 then LogRotate.Week else backTime)
    ensures SubLoggerFor(dirPath, level, rotateTime, backTime, now).out.rotateSize == LogRotate.G
    ensures SubLoggerFor(dirPath, level, rotateTime, backTime, now).out.outFh.None?
  {
    var opts := [LogRotate.WithRotateTime(rotateTime), LogRotate.WithBackTime(backTime)];
    var zero := LogRotate.Settings(0, 0, 0);
    assert opts[..1] == [LogRotate.WithRotateTime(rotateTime)];
    assert opts[..1][..0] == [];
    assert LogRotate.SetAll(opts[..1], zero) == LogRotate.Settings(rotateTime, 0, 0);
    assert LogRotate.SetAll(opts, zero) == LogRotate.Settings(rotateTime, backTime, 0);
  }

  /** What NewLogger builds for an applied option, or None where it panics: an unknown level,
      or a duration time.ParseDuration rejects. */
  function Built(c: LogOption.Config, parse: string -> Option<int>, clock: nat -> int): Option<seq<SubLogger>>
  {
    match FileLevels(c.level)
    case None => None
    case Some(levels) => BuiltWith(c, levels, parse, clock)
  }

  /** Built once fileLevels has given the levels: both durations must parse. */
  function BuiltWith(c: LogOption.Config, levels: seq<string>, parse: string -> Option<int>, clock: nat -> int): Option<seq<SubLogger>>
  {
    match ParseDuration(c.rotateDuration, parse)
    case None => None
    case Some(rotateTime) =>
      match ParseDuration(c.backTime, parse)
      case None => None
      case Some(backTime) => Some(SubLoggers(c.dirPath, levels, rotateTime, backTime, clock))
  }

  /** A call forwarded to one sub-logger: its file, the entry's level and the message. */
  datatype Call = Call(file: string, level: int, msg: string)

  /** zap's rule for a core built with level `l`: it records entries at `l` and above. */
  predicate Enabled(sub: SubLogger, entryLevel: int)
  {
    entryLevel >= sub.level
  }

  /** The files that record an entry: those of the sub-loggers that enable its level, in order. */
  function Recorded(subs: seq<SubLogger>, entryLevel: int): (files: seq<string>)
    ensures |files| <= |subs|
  {
    if |subs| == 0 then []
    else
      var init := Recorded(subs[..|subs| - 1], entryLevel);
      var last := subs[|subs| - 1];
      if Enabled(last, entryLevel) then init + [last.file] else init
  }

  /** With the sub-loggers sorted so that the first n enable a level and the rest do not, the
      entry is recorded in exactly the first n files. */
  lemma {:induction false} RecordedPrefix(subs: seq<SubLogger>, entryLevel: int, n: nat)
    requires n <= |subs|
    requires forall i :: 0 <= i < n ==> Enabled(subs[i], entryLevel)
    requires forall i :: n <= i < |subs| ==> !Enabled(subs[i], entryLevel)
    ensures Recorded(subs, entryLevel) == seq(n, i requires 0 <= i < n => subs[i].file)
  {
    if |subs| > 0 {
      var init := subs[..|subs| - 1];
      if n == |subs| {
        RecordedPrefix(init, entryLevel, n - 1);
      } else {
        RecordedPrefix(init, entryLevel, n);
      }
    }
  }

  /** The sub-logger of the i-th selected level has zap level k + i - 1. */
  lemma SubLoggerLevels(dirPath: string, k: nat, rotateTime: int, backTime: int, clock: nat -> int, i: nat)
    requires k < |Levels| && i < |Levels| - k
    ensures SubLoggers(dirPath, Levels[k..], rotateTime, backTime, clock)[i].level == k + i - 1
  {
    assert Levels[k..][i] == Levels[k + i];
  }

  /** An error entry is recorded in every file of the logger built for the k-th level. */
  lemma ErrorRecordedEverywhere(dirPath: string, k: nat, rotateTime: int, backTime: int, clock: nat -> int)
    requires k < |Levels|
    ensures var subs := SubLoggers(dirPath, Levels[k..], rotateTime, backTime, clock);
            Recorded(subs, ErrorLevel) == seq(|subs|, i requires 0 <= i < |subs| => subs[i].file)
  {
    var subs := SubLoggers(dirPath, Levels[k..], rotateTime, backTime, clock);
    forall i | 0 <= i < |subs| ensures Enabled(subs[i], ErrorLevel) {
      SubLoggerLevels(dirPath, k, rotateTime, backTime, clock, i);
    }
    RecordedPrefix(subs, ErrorLevel, |subs|);
  }

  /** A debug entry is recorded only in debug.log, and only when debug is the configured level. */
  lemma DebugRecordedOnlyInDebugFile(dirPath: string, k: nat, rotateTime: int, backTime: int, clock: nat -> int)
    requires k < |Levels|
    ensures var subs := SubLoggers(dirPath, Levels[k..], rotateTime, backTime, clock);
            Recorded(subs, DebugLevel) == (if k == 0 then [subs[0].file] else [])
  {
    var subs := SubLoggers(dirPath, Levels[k..], rotateTime, backTime, clock);
    forall i | 0 <= i < |subs| ensures subs[i].level == k + i - 1 {
      SubLoggerLevels(dirPath, k, rotateTime, backTime, clock, i);
    }
    if k == 0 {
      RecordedPrefix(subs, DebugLevel, 1);
    } else {
      RecordedPrefix(subs, DebugLevel, 0);
    }
  }

  /** ZapLogger: the sub-loggers NewLogger appends, one per level. */
  class ZapLogger {
    var zapLogger: seq<SubLogger>

    constructor ()
      ensures zapLogger == []
    {
      zapLogger := [];
    }

    /** Debug, Debugf, Info, Infof, Warn, Warnf, Error and Errorf: the (formatted) message at
        the method's level, forwarded to every sub-logger in order. */
    method Emit(level: int, msg: string) returns (calls: seq<Call>)
      ensures |calls| == |zapLogger|
      ensures forall i :: 0 <= i < |calls| ==> calls[i] == Call(zapLogger[i].file, level, msg)
    {
      calls := [];
      var i := 0;
      while i < |zapLogger|
        invariant 0 <= i <= |zapLogger|
        invariant |calls| == i
        invariant forall j :: 0 <= j < i ==> calls[j] == Call(zapLogger[j].file, level, msg)
      {
        calls := calls + [Call(zapLogger[i].file, level, msg)];
        i := i + 1;
      }
    }
  }

  /** NewLogger: apply the option's defaults in place, then build one sub-logger per level in
      fileLevels(Level); None stands for a panic. */
  method NewLogger(opt: LogOption.Option, parse: string -> Option<int>, clock: nat -> int) returns (logger: Option<ZapLogger>)
    modifies opt
    ensures opt.Snapshot() == LogOption.Applied(old(opt.Snapshot()))
    ensures logger.Some? <==> Built(opt.Snapshot(), parse, clock).Some?
    ensures logger.Some? ==> fresh(logger.value) && logger.value.zapLogger == Built(opt.Snapshot(), parse, clock).value
  {
    opt.Apply();
    logger := BuildLogger(opt.Snapshot(), parse, clock);
  }

  /** The part of NewLogger after the defaults: the sub-loggers built from the settled option. */
  method BuildLogger(c: LogOption.Config, parse: string -> Option<int>, clock: nat -> int) returns (logger: Option<ZapLogger>)
    ensures logger.Some? <==> Built(c, parse, clock).Some?
    ensures logger.Some? ==> fresh(logger.value) && logger.value.zapLogger == Built(c, parse, clock).value
  {
    var levels := FileLevels(c.level);
    if levels.None? {
      return None;
    }
    var l := new ZapLogger();
    var ok := AddSubLoggers(l, c.dirPath, levels.value, c.rotateDuration, c.backTime, parse, clock);
    assert Built(c, parse, clock) == BuiltWith(c, levels.value, parse, clock);
    if !ok {
      return None;
    }
    return Some(l);
  }

  /** The loop of NewLogger: for each level, parse the two durations and append the level's
      sub-logger; false stands for a panic in the parse. */
  method AddSubLoggers(l: ZapLogger, dirPath: string, levels: seq<string>, rotateDuration: string,
                       backTimeText: string, parse: string -> Option<int>, clock: nat -> int) returns (ok: bool)
    requires l.zapLogger == [] && |levels| > 0
    modifies l
    ensures ok <==> ParseDuration(rotateDuration, parse).Some? && ParseDuration(backTimeText, parse).Some?
    ensures ok ==> l.zapLogger == SubLoggers(dirPath, levels, ParseDuration(rotateDuration, parse).value,
                                             ParseDuration(backTimeText, parse).value, clock)
  {
    var i := 0;
    while i < |levels|
      invariant 0 <= i <= |levels|
      invariant i > 0 ==> ParseDuration(rotateDuration, parse).Some? && ParseDuration(backTimeText, parse).Some?
      invariant i > 0 ==> l.zapLogger == SubLoggers(dirPath, levels[..i], ParseDuration(rotateDuration, parse).value,
                                                    ParseDuration(backTimeText, parse).value, clock)
      invariant i == 0 ==> l.zapLogger == []
    {
      var rotateTime := ParseDuration(rotateDuration, parse);
      var backTime := ParseDuration(backTimeText, parse);
      if rotateTime.None? || backTime.None? {
        return false;
      }
      l.zapLogger := l.zapLogger + [SubLoggerFor(dirPath, levels[i], rotateTime.value, backTime.value, clock(i))];
      SubLoggersSnoc(dirPath, levels, rotateTime.value, backTime.value, clock, i);
      i := i + 1;
    }
    assert levels[..i] == levels;
    return true;
  }

  lemma SubLoggersSnoc(dirPath: string, levels: seq<string>, rotateTime: int, backTime: int, clock: nat -> int, i: nat)
    requires i < |levels|
    ensures SubLoggers(dirPath, levels[..i + 1], rotateTime, backTime, clock) ==
            SubLoggers(dirPath, levels[..i], rotateTime, backTime, clock) + [SubLoggerFor(dirPath, levels[i], rotateTime, backTime, clock(i))]
  {
  }
}
