/** `CustomLogger` and its formatters: the per-level colour templates, the
    rewriting of absolute paths in a message, the process-wide cache of
    loggers, and which loggers a message goes to. Handlers, files and the
    rendering of `%(...)` fields belong to the logging library and are not
    modelled; a logger is described by its name and handlers. */
module Logging {
  import opened Exceptions
  import opened Wrappers
  import opened Text
  import opened Constants

  const LogTime := "%(asctime)s |"
  const LevelNameFormat := " %(levelname)-8s "
  const LogMessage := "| %(account_id)8s | %(address)s | %(network)s - %(message)s"

  const Red := "\U{1B}[31;20m"
  const Green := "\U{1B}[32;20m"
  const Yellow := "\U{1B}[33;20m"
  const Blue := "\U{1B}[34;20m"
  const White := "\U{1B}[37;20m"
  const Grey := "\U{1B}[38;20m"
  const Reset := "\U{1B}[0m"

  /** `FORMATS`: each coloured level's name field is its colour, the padded
      level name, and the reset code. */
  const Colours: map<string, string> := map[
    "DEBUG" := Blue,
    "INFO" := White,
    "WARNING" := Yellow,
    "SUCCESS" := Green,
    "ERROR" := Red,
    "MINTED" := Green]

  function LevelField(colour: string): string {
    colour + LevelNameFormat + Reset
  }

  /** The template `format` hands to a fresh formatter. A level without an
      entry leaves the formatter unassigned: UnboundLocalError. */
  function FormatTemplate(levelname: string): (r: Result<string>)
    ensures r.Ok? <==> levelname in Colours
    ensures r.Ok? ==> IsPrefix(LogTime, r.value) && Contains(r.value, LevelNameFormat)
    ensures r.Ok? ==> IsPrefix(LogTime + Colours[levelname], r.value)
    ensures r.Err? ==> r.error == UnboundLocalError
  {
    if levelname in Colours then
      var c := Colours[levelname];
      var t := LogTime + LevelField(c) + LogMessage;
      assert t == (LogTime + c) + LevelNameFormat + (Reset + LogMessage);
      assert t[..|LogTime|] == LogTime;
      assert t[..|LogTime + c|] == LogTime + c;
      assert OccursAt(t, LevelNameFormat, |LogTime + c|) by {
        assert t[|LogTime + c|..|LogTime + c| + |LevelNameFormat|] == LevelNameFormat;
      }
      ContainsAt(t, LevelNameFormat);
      Ok(t)
    else Err(UnboundLocalError)
  }

  /** Exactly the levels DEBUG, INFO, WARNING, SUCCESS, ERROR and MINTED
      format; CRITICAL, DELAY and BRIDGED have no template. */
  lemma FormattedLevels(s: LogStatus)
    ensures FormatTemplate(s.Name()).Ok? <==> s in {Debug, Info, Warning, Success, Error, Minted}
  {
  }

  // Path normalisation as `os.path.relpath` does it for a path below the
  // start directory: empty and `.` segments disappear.

  /** A segment that survives normalisation. */
  predicate CleanSegment(seg: string) {
    seg != "" && seg != "." && '/' !in seg
  }

  function Keep(seg: string): seq<string> {
    if seg == "" || seg == "." then [] else [seg]
  }

  /** The segments of `cur + s`, split at `/`, where `cur` is the part of the
      current segment already read. */
  function SegmentsFrom(s: string, cur: string): (r: seq<string>)
    requires '/' !in cur
    ensures forall i :: 0 <= i < |r| ==> CleanSegment(r[i])
    decreases |s|
  {
    if |s| == 0 then Keep(cur)
    else if s[0] == '/' then Keep(cur) + SegmentsFrom(s[1..], "")
    else SegmentsFrom(s[1..], cur + [s[0]])
  }

  function Segments(s: string): seq<string> {
    SegmentsFrom(s, "")
  }

  /** The segments joined with single separators. */
  function JoinPath(segs: seq<string>): string {
    if |segs| == 0 then "" else if |segs| == 1 then segs[0] else segs[0] + "/" + JoinPath(segs[1..])
  }

  /** A relative path in normal form: its segments joined, or `.` when
      there are none. */
  function Normalise(s: string): string {
    var p := JoinPath(Segments(s));
    if p == "" then "." else p
  }

  lemma {:induction false} SegmentsAbsorb(a: string, s: string, cur: string)
    requires '/' !in a && '/' !in cur
    ensures SegmentsFrom(a + s, cur) == SegmentsFrom(s, cur + a)
    decreases |a|
  {
    if |a| > 0 {
      assert (a + s)[0] == a[0] && (a + s)[1..] == a[1..] + s;
      SegmentsAbsorb(a[1..], s, cur + [a[0]]);
      assert cur + [a[0]] + a[1..] == cur + a;
    } else {
      assert a + s == s && cur + a == cur;
    }
  }

  /** Splitting undoes joining clean segments. */
  lemma {:induction false} SegmentsOfJoin(segs: seq<string>)
    requires forall i :: 0 <= i < |segs| ==> CleanSegment(segs[i])
    ensures Segments(JoinPath(segs)) == segs
  {
    if |segs| == 1 {
      SegmentsAbsorb(segs[0], "", "");
      assert segs[0] + "" == segs[0] && "" + segs[0] == segs[0];
    } else if |segs| > 1 {
      var rest := JoinPath(segs[1..]);
      assert segs[0] + "/" + rest == segs[0] + ("/" + rest);
      SegmentsAbsorb(segs[0], "/" + rest, "");
      assert "" + segs[0] == segs[0];
      assert ("/" + rest)[1..] == rest;
      SegmentsOfJoin(segs[1..]);
      assert segs == [segs[0]] + segs[1..];
    }
  }

  /** Normalising twice is normalising once, and keeps the segments. */
  lemma NormaliseIdempotent(s: string)
    ensures Segments(Normalise(s)) == Segments(s)
    ensures Normalise(Normalise(s)) == Normalise(s)
  {
    SegmentsOfJoin(Segments(s));
    if JoinPath(Segments(s)) == "" {
      assert Segments(".") == [] by {
        SegmentsAbsorb(".", "", "");
        assert "." + "" == "." && "" + "." == ".";
      }
    }
  }

  /** The message, rewritten relative to `root` when it starts with it, is
      read below `root` when the next character is a separator (or `root`
      itself ends in one), or when it is `root` itself. */
  predicate BelowRoot(root: string, msg: string) {
    IsPrefix(root, msg) &&
    (|msg| == |root| || msg[|root|] == '/' || (|root| > 0 && root[|root| - 1] == '/'))
  }

  /** `format_message`: a message that starts with the working directory is
      rewritten by `os.path.relpath` relative to it; any other message is
      left alone. The whole record text is rewritten, so separators are
      collapsed in the message part as well. */
  function FormatMessage(root: string, msg: string): (r: string)
    ensures !IsPrefix(root, msg) ==> r == msg
    ensures BelowRoot(root, msg) ==> Segments(r) == Segments(msg[|root|..]) && Normalise(r) == r
    ensures IsPrefix(root, msg) && |msg| == |root| ==> r == "."
  {
    if !IsPrefix(root, msg) then msg
    else if BelowRoot(root, msg) then
      NormaliseIdempotent(msg[|root|..]);
      assert Segments("") == [];
      Normalise(msg[|root|..])
    else msg[|root|..]
  }

  /** A caller's file below the working directory, given as clean segments,
      is shown as the path relative to it. */
  lemma CallerFileIsShortened(root: string, segs: seq<string>)
    requires |segs| > 0 && forall i :: 0 <= i < |segs| ==> CleanSegment(segs[i])
    ensures FormatMessage(root, root + "/" + JoinPath(segs)) == JoinPath(segs)
  {
    var rest := "/" + JoinPath(segs);
    var msg := root + rest;
    assert msg == root + "/" + JoinPath(segs);
    assert msg[..|root|] == root && msg[|root|..] == rest && rest[0] == '/';
    assert BelowRoot(root, msg);
    NormaliseOfRooted(segs);
  }

  lemma NormaliseOfRooted(segs: seq<string>)
    requires |segs| > 0 && forall i :: 0 <= i < |segs| ==> CleanSegment(segs[i])
    ensures Normalise("/" + JoinPath(segs)) == JoinPath(segs)
  {
    var j := JoinPath(segs);
    assert Segments("/" + j) == Segments(j) by {
      assert ("/" + j)[0] == '/' && ("/" + j)[1..] == j;
      assert SegmentsFrom("/" + j, "") == Keep("") + SegmentsFrom(j, "");
    }
    SegmentsOfJoin(segs);
    JoinPathStartsWithFirst(segs);
  }

  lemma JoinPathStartsWithFirst(segs: seq<string>)
    requires |segs| > 0
    ensures |JoinPath(segs)| >= |segs[0]|
  {
  }

  /** As written, the relative-path rewriting also reaches the message text:
      the `//` of an explorer link becomes `/`. */
  lemma AsWrittenLinkLosesASlash()
    ensures FormatMessage("/r", CallingPrefix("/r/m.py", 7) + "https://e") == "m.py:7 - https:/e"
  {
    var a := "m.py:7 - https:";
    assert IntToString(7) == "7";
    var msg := CallingPrefix("/r/m.py", 7) + "https://e";
    assert msg == "/r" + ("/" + (a + "//e"));
    assert BelowRoot("/r", msg);
    assert msg[2..] == "/" + (a + "//e");
    assert Segments("/" + (a + "//e")) == SegmentsFrom(a + "//e", "");
    SegmentsAbsorb(a, "//e", "");
    assert "" + a == a;
    assert SegmentsFrom("//e", a) == [a] + SegmentsFrom("/e", "");
    assert SegmentsFrom("/e", "") == SegmentsFrom("e", "");
    SegmentsAbsorb("e", "", "");
    assert "e" + "" == "e" && "" + "e" == "e";
    assert Segments("/" + (a + "//e")) == [a, "e"];
    assert JoinPath([a, "e"]) == a + "/" + "e";
  }

  /** The rendering as evidently intended: only the caller's file is made
      relative; the line number and the message follow unchanged. */
  function FormatRecord(root: string, file: string, line: int, message: string): (r: string)
    ensures |r| >= |message| && r[|r| - |message|..] == message
    ensures IsPrefix(FormatMessage(root, file) + ":" + IntToString(line) + " - ", r)
  {
    var r := CallingPrefix(FormatMessage(root, file), line) + message;
    assert r[|r| - |message|..] == message;
    r
  }

  /** With the correction, a caller below the root is shown by its relative
      path, and the link keeps its `//`. */
  lemma FormatRecordKeepsLink()
    ensures FormatRecord("/r", "/r/m.py", 7, "https://e") == "m.py:7 - https://e"
  {
    CallerFileIsShortened("/r", ["m.py"]);
  }

  /** An account id as given: an integer (generated) or a name. */
  datatype AccountId = IdInt(n: int) | IdStr(s: string)

  function IdText(id: AccountId): string {
    match id
    case IdInt(n) => IntToString(n)
    case IdStr(s) => s
  }

  datatype Handler = Console(level: int) | File(path: string, level: int)

  /** A configured logger, by name and handlers. */
  datatype Logger = Logger(name: string, handlers: seq<Handler>)

  /** `LOGGERS`: one dictionary for the main logger (under the string
      `"main_logger"`) and the account loggers (under their ids). */
  type Cache = map<AccountId, Logger>

  const MainKey := IdStr("main_logger")

  const InfoLevel := 20

  const MainLogger := Logger("main", [Console(InfoLevel), File("main.log", InfoLevel)])

  function AccountLogger(id: AccountId): Logger {
    Logger("logs/log_" + IdText(id), [File("logs/log_" + IdText(id) + ".log", InfoLevel)])
  }

  /** `_initialize_main_log`: created on first use, then always the cached one. */
  function InitMainLog(cache: Cache): (r: (Cache, Logger))
    ensures MainKey in r.0 && r.0[MainKey] == r.1
    ensures MainKey in cache ==> r == (cache, cache[MainKey])
    ensures MainKey !in cache ==> r.0 == cache[MainKey := MainLogger] && r.1 == MainLogger
  {
    if MainKey in cache then (cache, cache[MainKey])
    else (cache[MainKey := MainLogger], MainLogger)
  }

  /** `_initialize_account_log`: one logger per id, created on first use. */
  function InitAccountLog(cache: Cache, id: AccountId): (r: (Cache, Logger))
    ensures id in r.0 && r.0[id] == r.1
    ensures id in cache ==> r == (cache, cache[id])
    ensures id !in cache ==> r.0 == cache[id := AccountLogger(id)] && r.1 == AccountLogger(id)
  {
    if id in cache then (cache, cache[id])
    else (cache[id := AccountLogger(id)], AccountLogger(id))
  }

  /** Asking twice gives the same logger and leaves the cache as the first
      call left it. */
  lemma LoggersAreCached(cache: Cache, id: AccountId)
    ensures var (c1, l1) := InitMainLog(cache); InitMainLog(c1) == (c1, l1)
    ensures var (c1, l1) := InitAccountLog(cache, id); InitAccountLog(c1, id) == (c1, l1)
  {
  }

  /** The two kinds of logger share one dictionary: an account named
      `main_logger` gets the main logger. */
  lemma AccountNamedMainLoggerGetsMainLogger(cache: Cache)
    ensures InitAccountLog(InitMainLog(cache).0, IdStr("main_logger")).1 == InitMainLog(cache).1
  {
  }

  /** Both loggers are set to DEBUG: `log` creates a record only at that
      level or above. */
  const LoggerLevel: int := 10

  /** The level names `log` accepts once the main logger has registered its
      two own. */
  const LevelNames: set<string> :=
    {"NOTSET", "DEBUG", "INFO", "SUCCESS", "MINTED", "WARNING", "WARN", "ERROR", "CRITICAL", "FATAL"}

  /** `logging.getLevelName` as `log` needs it: the standard names, with
      the aliases WARN and FATAL, plus the two the main logger registers
      (SUCCESS 26, MINTED 28); any other name has no number and `log` raises
      TypeError. */
  function LevelNumber(level: string): (r: Option<int>)
    ensures r.Some? <==> level in LevelNames
    ensures r.Some? ==> 0 <= r.value <= 50
    ensures r.Some? && level != "NOTSET" ==> LoggerLevel <= r.value
    ensures r == Some(0) <==> level == "NOTSET"
  {
    if level == "NOTSET" then Some(0)
    else if level == "DEBUG" then Some(10)
    else if level == "INFO" then Some(20)
    else if level == "SUCCESS" then Some(26)
    else if level == "MINTED" then Some(28)
    else if level == "WARNING" || level == "WARN" then Some(30)
    else if level == "ERROR" then Some(40)
    else if level == "CRITICAL" || level == "FATAL" then Some(50)
    else None
  }

  /** The aliases log at the level of the name they stand for. */
  lemma LevelAliases()
    ensures LevelNumber("WARN") == LevelNumber("WARNING") == Some(30)
    ensures LevelNumber("FATAL") == LevelNumber("CRITICAL") == Some(50)
  {
  }

  /** The logger a `CustomLogger` is configured with. */
  datatype CustomLogger = CustomLogger(accountId: AccountId, address: string, network: string, perAccount: bool)

  /** One record handed to a logger. */
  datatype Emitted = Emitted(logger: string, level: int, msg: string)

  /** The calling location put in front of every message. */
  function CallingPrefix(file: string, line: int): string {
    file + ":" + IntToString(line) + " - "
  }

  /** `log_message`: the message, prefixed with the caller's file and line,
      goes to the main logger, and to the account's logger as well only when
      per-account files are on. Loggers are created on demand, and a level
      below the loggers' DEBUG creates no record. */
  function LogMessageTo(cache: Cache, lg: CustomLogger, level: string, message: string, file: string, line: int)
    : (r: Result<(Cache, seq<Emitted>)>)
    ensures r.Ok? <==> LevelNumber(level).Some?
    ensures r.Err? ==> r.error == TypeError
    ensures r.Ok? ==>
      var (c, out) := r.value;
      && |out| == (if LevelNumber(level).value < LoggerLevel then 0 else if lg.perAccount then 2 else 1)
      && (|out| > 0 ==> out[0].logger == InitMainLog(cache).1.name)
      && (|out| > 1 ==> out[1].logger == InitAccountLog(InitMainLog(cache).0, lg.accountId).1.name)
      && (forall e :: e in out ==> e.msg == CallingPrefix(file, line) + message && e.level == LevelNumber(level).value)
      && MainKey in c && (lg.perAccount ==> lg.accountId in c)
  {
    var text := CallingPrefix(file, line) + message;
    var (c1, main) := InitMainLog(cache);
    match LevelNumber(level)
    case None => Err(TypeError)
    case Some(n) =>
      var c2 := if lg.perAccount then InitAccountLog(c1, lg.accountId).0 else c1;
      var records := [Emitted(main.name, n, text)]
        + (if lg.perAccount then [Emitted(InitAccountLog(c1, lg.accountId).1.name, n, text)] else []);
      Ok((c2, if n < LoggerLevel then [] else records))
  }

  /** An alias logs exactly as the name it stands for, and NOTSET, though
      accepted, creates no record. */
  lemma LevelNamesLogAlike(cache: Cache, lg: CustomLogger, message: string, file: string, line: int)
    ensures LogMessageTo(cache, lg, "WARN", message, file, line) == LogMessageTo(cache, lg, "WARNING", message, file, line)
    ensures LogMessageTo(cache, lg, "FATAL", message, file, line) == LogMessageTo(cache, lg, "CRITICAL", message, file, line)
    ensures LogMessageTo(cache, lg, "NOTSET", message, file, line).Ok?
    ensures LogMessageTo(cache, lg, "NOTSET", message, file, line).value.1 == []
  {
    LevelAliases();
  }
}
