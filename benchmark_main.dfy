/**
 * The sequential parts of the benchmark's `main`: the registered options and
 * their defaults, copying parsed values into the option globals, the names
 * of the run's output files, the resource-usage report, and how coroutines
 * are bound to shared objects. The clock, `getrusage` and the thread pool
 * are outside this model: their readings come in as parameters.
 */
module BenchmarkMain {
  import opened Wrappers
  import opened Text
  import opened ArtifactNames
  import opened Files
  import opened OptionsParser
  import opened OptionsManager
  import CounterDumper
  import PyPath

  // Option names and aliases, as registered.
  const HelpName := "help"
  const ThreadsName := "threads-number"
  const CoroName := "coro-number"
  const SharedName := "shared-number"
  const TargetName := "target"
  const DumpName := "dump-period"
  const WorkName := "working-time"
  const OutputDirName := "output-dir"

  /** The eight option globals. */
  datatype Settings = Settings(
    help: bool, threads: nat, coro: nat, shared: nat, target: string,
    dump: nat, worktime: nat, outputDir: string)

  /** The registered defaults. */
  const Defaults := Settings(false, 10, 5, 1, "cm", 1000, 20, ".")

  /** Registers the eight options with their aliases and help texts; all but `help` take a value. */
  method SetUpOptions(p: OptionsParser)
    requires p.Valid()
    modifies p`options, p`shortOptions
    ensures p.Valid()
    ensures p.options == old(p.options)
      [HelpName := OptionInfo('h', "Show this help message", false, false, "")]
      [ThreadsName := OptionInfo('n', "Thread pool for coro execution size", true, false, "")]
      [CoroName := OptionInfo('c', "Coroutines number", true, false, "")]
      [SharedName := OptionInfo('s', "Number of shared objects", true, false, "")]
      [TargetName := OptionInfo('t', "Target sync prim (m - std::mutex, cm - coroMutex)", true, false, "")]
      [DumpName := OptionInfo('d', "Period to dump atomic counter, as ms", true, false, "")]
      [WorkName := OptionInfo('w', "Time to work, as seconds (inf - infinite loop)", true, false, "")]
      [OutputDirName := OptionInfo('o', "Time to work, as seconds (inf - infinite loop)", true, false, "")]
    ensures p.shortOptions == old(p.shortOptions)
      ['h' := HelpName]['n' := ThreadsName]['c' := CoroName]['s' := SharedName]
      ['t' := TargetName]['d' := DumpName]['w' := WorkName]['o' := OutputDirName]
  {
    p.AddOption(HelpName, 'h', "Show this help message", false);
    p.AddOption(ThreadsName, 'n', "Thread pool for coro execution size", true);
    p.AddOption(CoroName, 'c', "Coroutines number", true);
    p.AddOption(SharedName, 's', "Number of shared objects", true);
    p.AddOption(TargetName, 't', "Target sync prim (m - std::mutex, cm - coroMutex)", true);
    p.AddOption(DumpName, 'd', "Period to dump atomic counter, as ms", true);
    p.AddOption(WorkName, 'w', "Time to work, as seconds (inf - infinite loop)", true);
    p.AddOption(OutputDirName, 'o', "Time to work, as seconds (inf - infinite loop)", true);
  }

  /**
   * `serializeOptions` as a function of the globals before it: each getter
   * in turn, with the global's current value as default; the first one that
   * raises ends it with that message, and the globals assigned before it keep
   * their new values.
   */
  function SerializeFrom(s: Settings, p: OptionsParser, getUInt64: (string, nat) -> Result<nat, string>): (r: (Settings, Option<string>))
    reads p
    // A registered option that is not set keeps the global's value.
    ensures Unset(p, HelpName) ==> r.0.help == s.help
    ensures Unset(p, TargetName) ==> r.0.target == s.target
    ensures Unset(p, OutputDirName) ==> r.0.outputDir == s.outputDir
    ensures Unset(p, ThreadsName) && getUInt64(ThreadsName, s.threads) == Ok(s.threads) ==> r.0.threads == s.threads
    ensures Unset(p, CoroName) && getUInt64(CoroName, s.coro) == Ok(s.coro) ==> r.0.coro == s.coro
    ensures Unset(p, SharedName) && getUInt64(SharedName, s.shared) == Ok(s.shared) ==> r.0.shared == s.shared
    ensures Unset(p, DumpName) && getUInt64(DumpName, s.dump) == Ok(s.dump) ==> r.0.dump == s.dump
    ensures Unset(p, WorkName) && getUInt64(WorkName, s.worktime) == Ok(s.worktime) ==> r.0.worktime == s.worktime
    // A bare `-h` turns help on (the parser exits on `--help` before this runs).
    ensures HelpName in p.options && p.options[HelpName].isSet && p.options[HelpName].value == "" ==> r.0.help
    // An unregistered help option stops the copying before anything changes.
    ensures HelpName !in p.options ==> r == (s, Some("Unknown option: " + HelpName))
    // Each getter reads its option with that global's old value as default.
    // When all of them succeed, every global takes its getter's value.
    ensures r.1.None? <==>
      && GetBool(p, HelpName, s.help).Ok?
      && getUInt64(ThreadsName, s.threads).Ok?
      && getUInt64(CoroName, s.coro).Ok?
      && getUInt64(SharedName, s.shared).Ok?
      && GetString(p, TargetName, s.target).Ok?
      && getUInt64(DumpName, s.dump).Ok?
      && getUInt64(WorkName, s.worktime).Ok?
      && GetString(p, OutputDirName, s.outputDir).Ok?
    ensures r.1.None? ==> r.0 == Settings(
      GetBool(p, HelpName, s.help).value,
      getUInt64(ThreadsName, s.threads).value,
      getUInt64(CoroName, s.coro).value,
      getUInt64(SharedName, s.shared).value,
      GetString(p, TargetName, s.target).value,
      getUInt64(DumpName, s.dump).value,
      getUInt64(WorkName, s.worktime).value,
      GetString(p, OutputDirName, s.outputDir).value)
  {
    match GetBool(p, HelpName, s.help)
    case Err(e) => (s, Some(e))
    case Ok(v) => SerializeThreads(s.(help := v), p, getUInt64)
  }

  /**
   * When a getter of `serializeOptions` fails, its message is the error; the
   * globals before it have their getters' values and the others keep theirs.
   */
  lemma SerializeFirstError(s: Settings, p: OptionsParser, getUInt64: (string, nat) -> Result<nat, string>)
    ensures var r := SerializeFrom(s, p, getUInt64);
      GetBool(p, HelpName, s.help).Err? ==>
      r.0 == s && r.1 == Some(GetBool(p, HelpName, s.help).error)
    ensures var r := SerializeFrom(s, p, getUInt64);
      var h := GetBool(p, HelpName, s.help);
      h.Ok? && getUInt64(ThreadsName, s.threads).Err? ==>
      r.0 == s.(help := h.value) && r.1 == Some(getUInt64(ThreadsName, s.threads).error)
    ensures var r := SerializeFrom(s, p, getUInt64);
      var h, n := GetBool(p, HelpName, s.help), getUInt64(ThreadsName, s.threads);
      h.Ok? && n.Ok? && getUInt64(CoroName, s.coro).Err? ==>
      r.0 == s.(help := h.value, threads := n.value) && r.1 == Some(getUInt64(CoroName, s.coro).error)
    ensures var r := SerializeFrom(s, p, getUInt64);
      var h, n, c := GetBool(p, HelpName, s.help), getUInt64(ThreadsName, s.threads), getUInt64(CoroName, s.coro);
      h.Ok? && n.Ok? && c.Ok? && getUInt64(SharedName, s.shared).Err? ==>
      r.0 == s.(help := h.value, threads := n.value, coro := c.value)
      && r.1 == Some(getUInt64(SharedName, s.shared).error)
    ensures var r := SerializeFrom(s, p, getUInt64);
      var h, n, c, sh := GetBool(p, HelpName, s.help), getUInt64(ThreadsName, s.threads),
        getUInt64(CoroName, s.coro), getUInt64(SharedName, s.shared);
      h.Ok? && n.Ok? && c.Ok? && sh.Ok? && GetString(p, TargetName, s.target).Err? ==>
      r.0 == s.(help := h.value, threads := n.value, coro := c.value, shared := sh.value)
      && r.1 == Some(GetString(p, TargetName, s.target).error)
    ensures var r := SerializeFrom(s, p, getUInt64);
      var h, n, c, sh, t := GetBool(p, HelpName, s.help), getUInt64(ThreadsName, s.threads),
        getUInt64(CoroName, s.coro), getUInt64(SharedName, s.shared), GetString(p, TargetName, s.target);
      h.Ok? && n.Ok? && c.Ok? && sh.Ok? && t.Ok? && getUInt64(DumpName, s.dump).Err? ==>
      r.0 == s.(help := h.value, threads := n.value, coro := c.value, shared := sh.value, target := t.value)
      && r.1 == Some(getUInt64(DumpName, s.dump).error)
    ensures var r := SerializeFrom(s, p, getUInt64);
      var h, n, c, sh, t, d := GetBool(p, HelpName, s.help), getUInt64(ThreadsName, s.threads),
        getUInt64(CoroName, s.coro), getUInt64(SharedName, s.shared), GetString(p, TargetName, s.target),
        getUInt64(DumpName, s.dump);
      h.Ok? && n.Ok? && c.Ok? && sh.Ok? && t.Ok? && d.Ok? && getUInt64(WorkName, s.worktime).Err? ==>
      r.0 == s.(help := h.value, threads := n.value, coro := c.value, shared := sh.value, target := t.value,
                dump := d.value)
      && r.1 == Some(getUInt64(WorkName, s.worktime).error)
    ensures var r := SerializeFrom(s, p, getUInt64);
      var h, n, c, sh, t, d, w := GetBool(p, HelpName, s.help), getUInt64(ThreadsName, s.threads),
        getUInt64(CoroName, s.coro), getUInt64(SharedName, s.shared), GetString(p, TargetName, s.target),
        getUInt64(DumpName, s.dump), getUInt64(WorkName, s.worktime);
      h.Ok? && n.Ok? && c.Ok? && sh.Ok? && t.Ok? && d.Ok? && w.Ok? && GetString(p, OutputDirName, s.outputDir).Err? ==>
      r.0 == s.(help := h.value, threads := n.value, coro := c.value, shared := sh.value, target := t.value,
                dump := d.value, worktime := w.value)
      && r.1 == Some(GetString(p, OutputDirName, s.outputDir).error)
  {
  }

  function SerializeThreads(s: Settings, p: OptionsParser, getUInt64: (string, nat) -> Result<nat, string>): (Settings, Option<string>)
    reads p
  {
    match getUInt64(ThreadsName, s.threads)
    case Err(e) => (s, Some(e))
    case Ok(v) => SerializeCoro(s.(threads := v), p, getUInt64)
  }

  function SerializeCoro(s: Settings, p: OptionsParser, getUInt64: (string, nat) -> Result<nat, string>): (Settings, Option<string>)
    reads p
  {
    match getUInt64(CoroName, s.coro)
    case Err(e) => (s, Some(e))
    case Ok(v) => SerializeShared(s.(coro := v), p, getUInt64)
  }

  function SerializeShared(s: Settings, p: OptionsParser, getUInt64: (string, nat) -> Result<nat, string>): (Settings, Option<string>)
    reads p
  {
    match getUInt64(SharedName, s.shared)
    case Err(e) => (s, Some(e))
    case Ok(v) => SerializeTarget(s.(shared := v), p, getUInt64)
  }

  function SerializeTarget(s: Settings, p: OptionsParser, getUInt64: (string, nat) -> Result<nat, string>): (Settings, Option<string>)
    reads p
  {
    match GetString(p, TargetName, s.target)
    case Err(e) => (s, Some(e))
    case Ok(v) => SerializeDump(s.(target := v), p, getUInt64)
  }

  function SerializeDump(s: Settings, p: OptionsParser, getUInt64: (string, nat) -> Result<nat, string>): (Settings, Option<string>)
    reads p
  {
    match getUInt64(DumpName, s.dump)
    case Err(e) => (s, Some(e))
    case Ok(v) => SerializeWork(s.(dump := v), p, getUInt64)
  }

  function SerializeWork(s: Settings, p: OptionsParser, getUInt64: (string, nat) -> Result<nat, string>): (Settings, Option<string>)
    reads p
  {
    match getUInt64(WorkName, s.worktime)
    case Err(e) => (s, Some(e))
    case Ok(v) => SerializeOutputDir(s.(worktime := v), p)
  }

  function SerializeOutputDir(s: Settings, p: OptionsParser): (Settings, Option<string>)
    reads p
  {
    match GetString(p, OutputDirName, s.outputDir)
    case Err(e) => (s, Some(e))
    case Ok(v) => (s.(outputDir := v), None)
  }

  /** `name` is registered and was not given on the command line. */
  predicate Unset(p: OptionsParser, name: string)
    reads p
  {
    name in p.options && !p.options[name].isSet
  }

  /** The option globals of `main.cpp`, each starting at its registered default. */
  class OptionGlobals {
    var help: bool
    var threads: nat
    var coro: nat
    var shared: nat
    var target: string
    var dump: nat
    var worktime: nat
    var outputDir: string

    function Current(): Settings
      reads this
    {
      Settings(help, threads, coro, shared, target, dump, worktime, outputDir)
    }

    constructor ()
      ensures Current() == Defaults
    {
      help, threads, coro, shared := false, 10, 5, 1;
      target, dump, worktime, outputDir := "cm", 1000, 20, ".";
    }

    /** Assigns every global at once. */
    method Store(s: Settings)
      modifies this
      ensures Current() == s
    {
      help, threads, coro, shared := s.help, s.threads, s.coro, s.shared;
      target, dump, worktime, outputDir := s.target, s.dump, s.worktime, s.outputDir;
    }

    /**
     * `serializeOptions`: reads every option through the options manager,
     * with the global's current value as default. `getUInt64` stands for
     * `optionsManager::getUInt64`, whose definition is not part of this model.
     */
    method Serialize(p: OptionsParser, getUInt64: (string, nat) -> Result<nat, string>) returns (error: Option<string>)
      modifies this
      ensures (Current(), error) == SerializeFrom(old(Current()), p, getUInt64)
    {
      var s := Current();
      var b := GetBool(p, HelpName, s.help);
      if b.Err? { return Some(b.error); }
      s := s.(help := b.value);
      var n := getUInt64(ThreadsName, s.threads);
      if n.Err? { Store(s); return Some(n.error); }
      s := s.(threads := n.value);
      n := getUInt64(CoroName, s.coro);
      if n.Err? { Store(s); return Some(n.error); }
      s := s.(coro := n.value);
      n := getUInt64(SharedName, s.shared);
      if n.Err? { Store(s); return Some(n.error); }
      s := s.(shared := n.value);
      var t := GetString(p, TargetName, s.target);
      if t.Err? { Store(s); return Some(t.error); }
      s := s.(target := t.value);
      n := getUInt64(DumpName, s.dump);
      if n.Err? { Store(s); return Some(n.error); }
      s := s.(dump := n.value);
      n := getUInt64(WorkName, s.worktime);
      if n.Err? { Store(s); return Some(n.error); }
      s := s.(worktime := n.value);
      t := GetString(p, OutputDirName, s.outputDir);
      if t.Err? { Store(s); return Some(t.error); }
      s := s.(outputDir := t.value);
      Store(s);
      error := None;
    }
  }

  // ---------------------------------------------------------------------
  // Run file names

  /** A broken-down local time, as `std::localtime` fills it in (calendar month and year). */
  datatype LocalTime = LocalTime(year: nat, month: nat, day: nat, hour: nat, minute: nat, second: nat)

  /** `%m`, `%d`, `%H`, `%M`, `%S`: two digits, zero-padded. */
  function TwoDigits(n: nat): string
  {
    ZeroPad(NatToString(n), 2)
  }

  /** `std::put_time` with `%Y-%m-%d_%H-%M-%S`; `%Y` is the year without padding. */
  function FormatStamp(t: LocalTime): string
  {
    NatToString(t.year) + "-" + TwoDigits(t.month) + "-" + TwoDigits(t.day)
    + "_" + TwoDigits(t.hour) + "-" + TwoDigits(t.minute) + "-" + TwoDigits(t.second)
  }

  lemma TwoDigitsShape(n: nat)
    requires n < 100
    ensures |TwoDigits(n)| == 2 && AllDigits(TwoDigits(n))
  {
    NumeralAtMost(n, 2);
  }

  /**
   * For a four-digit year and fields below 100 the stamp has the fixed
   * nineteen-character shape the tools' file-name patterns expect.
   */
  lemma StampShapeOfFormat(t: LocalTime)
    requires 1000 <= t.year <= 9999
    requires t.month < 100 && t.day < 100 && t.hour < 100 && t.minute < 100 && t.second < 100
    ensures StampShape(FormatStamp(t))
  {
    NumeralAtMost(t.year, 4);
    NumeralMoreThan(t.year, 3);
    TwoDigitsShape(t.month);
    TwoDigitsShape(t.day);
    TwoDigitsShape(t.hour);
    TwoDigitsShape(t.minute);
    TwoDigitsShape(t.second);
    StampOfParts(NatToString(t.year), TwoDigits(t.month), TwoDigits(t.day),
                 TwoDigits(t.hour), TwoDigits(t.minute), TwoDigits(t.second));
  }

  /** Four digits and five pairs of digits, with the separators of the stamp between them. */
  lemma StampOfParts(y: string, mo: string, d: string, h: string, mi: string, se: string)
    requires |y| == 4 && AllDigits(y)
    requires |mo| == 2 && AllDigits(mo) && |d| == 2 && AllDigits(d) && |h| == 2 && AllDigits(h)
    requires |mi| == 2 && AllDigits(mi) && |se| == 2 && AllDigits(se)
    ensures StampShape(y + "-" + mo + "-" + d + "_" + h + "-" + mi + "-" + se)
  {
    var r := y + "-" + mo + "-" + d + "_" + h + "-" + mi + "-" + se;
    assert r[0..4] == y && r[5..7] == mo && r[8..10] == d;
    assert r[11..13] == h && r[14..16] == mi && r[17..19] == se;
  }

  /** The run parameters that go into the file names. */
  function ParamsOf(s: Settings): RunParams
  {
    RunParams(s.threads, s.coro, s.shared, s.dump, s.worktime)
  }

  /**
   * `getLogFilesBase`: the stamp of the local time `now`, then the labelled
   * option values in a fixed order.
   */
  function LogFilesBase(now: LocalTime, s: Settings): string
  {
    RunFileBase(FormatStamp(now), ParamsOf(s), s.target)
  }

  /**
   * Every field of the base name can be read back from a run file named
   * after it, whatever follows the extension, provided the target is made of
   * word characters.
   */
  lemma LogFilesBaseRoundTrip(now: LocalTime, s: Settings, ext: string, rest: string)
    requires 1000 <= now.year <= 9999
    requires now.month < 100 && now.day < 100 && now.hour < 100 && now.minute < 100 && now.second < 100
    requires |s.target| > 0 && AllWordChars(s.target)
    ensures StampShape(FormatStamp(now))
    ensures MatchRunFile(LogFilesBase(now, s) + "." + ext + rest, ext)
         == Some(RunFileFields(StampText(FormatStamp(now)), ParamsOf(s), s.target))
  {
    StampShapeOfFormat(now);
    RunFileRoundTrip(FormatStamp(now), ParamsOf(s), s.target, ext, rest);
  }

  /** `outputDir + "/" + base + "." + ext`: the shape of the three output paths. */
  function OutputPath(outputDir: string, base: string, ext: string): (r: string)
    ensures StartsWith(r, outputDir + "/")
    ensures EndsWith(r, "." + ext)
  {
    var r := outputDir + "/" + base + "." + ext;
    assert r[..|outputDir| + 1] == outputDir + "/";
    assert r[|r| - |ext| - 1..] == "." + ext;
    r
  }

  /** `getCounterLogFilePath`, `getLogFilePath` and `getUsageFilePath`. */
  function CounterLogPath(s: Settings, base: string): string { OutputPath(s.outputDir, base, "csv") }
  function LogPath(s: Settings, base: string): string { OutputPath(s.outputDir, base, "log") }
  function UsagePath(s: Settings, base: string): string { OutputPath(s.outputDir, base, "usage") }

  /**
   * The three paths differ only in their extension: a tool that takes the
   * basename of any of them finds the base name and the extension, and one
   * that takes the directory part finds the output directory.
   */
  lemma OutputPathParts(outputDir: string, base: string, ext: string)
    requires '/' !in base && '/' !in ext
    ensures PyPath.Basename(OutputPath(outputDir, base, ext)) == base + "." + ext
    ensures outputDir != [] && outputDir[|outputDir| - 1] != '/' ==>
              PyPath.Dirname(OutputPath(outputDir, base, ext)) == outputDir
  {
    var name := base + "." + ext;
    assert '/' !in name by {
      forall i | 0 <= i < |name| ensures name[i] != '/' {
        if i < |base| { assert name[i] == base[i]; }
        else if i > |base| { assert name[i] == ext[i - |base| - 1]; }
      }
    }
    assert OutputPath(outputDir, base, ext) == outputDir + "/" + name;
    PyPath.BasenameOfJoined(outputDir, name);
    if outputDir != [] && outputDir[|outputDir| - 1] != '/' {
      PyPath.DirnameOfJoined(outputDir, name);
    }
  }

  // ---------------------------------------------------------------------
  // Resource usage

  /** A `struct timeval`. */
  datatype TimeVal = TimeVal(sec: int, usec: int)

  /** The CPU times of one `getrusage(RUSAGE_SELF)` snapshot. */
  datatype Usage = Usage(utime: TimeVal, stime: TimeVal)

  /** The time a `timeval` stands for, in microseconds. */
  function TotalMicros(t: TimeVal): int
  {
    t.sec * 1000000 + t.usec
  }

  /**
   * The seconds difference scaled to microseconds plus the microseconds
   * difference: exactly the time between the two readings.
   */
  function CpuMicros(start: TimeVal, end: TimeVal): (r: int)
    ensures r == TotalMicros(end) - TotalMicros(start)
    ensures 0 <= start.usec < 1000000 && 0 <= end.usec < 1000000 ==>
              (r >= 0 <==> (end.sec, end.usec) == (start.sec, start.usec) || end.sec > start.sec
                           || (end.sec == start.sec && end.usec > start.usec))
  {
    var d, u := end.sec - start.sec, end.usec - start.usec;
    assert d >= 1 ==> d * 1000000 >= 1000000;
    assert d <= -1 ==> d * 1000000 <= -1000000;
    d * 1000000 + u
  }

  /** Integer division rounding toward zero, as C++ `/` and `duration_cast` do. */
  function TruncDiv(a: int, b: nat): (q: int)
    requires b > 0
    ensures a >= 0 ==> q >= 0 && q * b <= a < q * b + b
    ensures a < 0 ==> q <= 0 && q * b - b < a <= q * b
  {
    if a >= 0 then a / b else -((-a) / b)
  }

  /** `duration_cast<microseconds>` of the wall-clock interval, read in nanoseconds. */
  function WallMicros(startNs: int, endNs: int): (r: int)
    ensures endNs >= startNs ==> r >= 0 && r * 1000 <= endNs - startNs < r * 1000 + 1000
    ensures endNs < startNs ==> r <= 0
  {
    TruncDiv(endNs - startNs, 1000)
  }

  const UsageHeader := "=== Resource Usage ==="
  const UsageFooter := "======================"

  /** One labelled line of the report, without its newline. */
  function UsageLine(tag: string, micros: int): string
  {
    tag + IntToString(micros)
  }

  /** The report appended to the usage file: header, three labelled lines, footer, blank line. */
  function UsageBlock(wall: int, user: int, system: int): string
  {
    UsageHeader + "\n"
    + (UsageLine(WallLabel, wall) + "\n"
    + (UsageLine(UserLabel, user) + "\n"
    + (UsageLine(SystemLabel, system) + "\n"
    + (UsageFooter + "\n" + "\n"))))
  }

  lemma NoNewlineInInt(i: int)
    ensures '\n' !in IntToString(i)
  {
    var s := IntToString(i);
    forall k | 0 <= k < |s| ensures s[k] != '\n' {
      if i < 0 && k > 0 {
        assert s[k] == NatToString(-i)[k - 1];
      }
    }
  }

  lemma NoNewlineInLabel(tag: string, i: int)
    requires tag in [WallLabel, UserLabel, SystemLabel]
    ensures '\n' !in UsageLine(tag, i)
  {
    NoNewlineInInt(i);
    var s := tag + IntToString(i);
    forall k | 0 <= k < |s| ensures s[k] != '\n' {
      if k >= |tag| { assert s[k] == IntToString(i)[k - |tag|]; }
    }
  }

  /** Five newline-free lines, each ended by a newline, then an empty line. */
  lemma SplitFiveLines(a: string, b: string, c: string, d: string, e: string)
    requires '\n' !in a && '\n' !in b && '\n' !in c && '\n' !in d && '\n' !in e
    ensures Split(a + "\n" + (b + "\n" + (c + "\n" + (d + "\n" + (e + "\n" + "\n")))), '\n')
         == [a, b, c, d, e, "", ""]
  {
    var t3 := d + "\n" + (e + "\n" + "\n");
    SplitLastTwoLines(d, e);
    SplitAfterField(c, '\n', t3);
    var t2 := c + "\n" + t3;
    SplitAfterField(b, '\n', t2);
    var t1 := b + "\n" + t2;
    SplitAfterField(a, '\n', t1);
    assert [a] + ([b] + ([c] + [d, e, "", ""])) == [a, b, c, d, e, "", ""];
  }

  lemma SplitLastTwoLines(d: string, e: string)
    requires '\n' !in d && '\n' !in e
    ensures Split(d + "\n" + (e + "\n" + "\n"), '\n') == [d, e, "", ""]
  {
    var t5 := "\n";
    assert Split(t5, '\n') == ["", ""] by {
      assert t5 == "" + ['\n'] + "";
      SplitAfterField("", '\n', "");
    }
    SplitAfterField(e, '\n', t5);
    SplitAfterField(d, '\n', e + "\n" + t5);
  }

  /** The report is five lines and a blank one, with the three times in a fixed order. */
  lemma UsageBlockLines(wall: int, user: int, system: int)
    ensures Split(UsageBlock(wall, user, system), '\n')
         == [UsageHeader, UsageLine(WallLabel, wall), UsageLine(UserLabel, user),
             UsageLine(SystemLabel, system), UsageFooter, "", ""]
  {
    NoNewlineInLabel(WallLabel, wall);
    NoNewlineInLabel(UserLabel, user);
    NoNewlineInLabel(SystemLabel, system);
    assert '\n' !in UsageHeader && '\n' !in UsageFooter;
    SplitFiveLines(UsageHeader, UsageLine(WallLabel, wall), UsageLine(UserLabel, user),
                   UsageLine(SystemLabel, system), UsageFooter);
  }

  /**
   * `dumpUsage`: computes the three times from the two snapshots and the two
   * clock readings and appends the report to the run's `.usage` file; when
   * the file cannot be opened nothing is written and the logged message is
   * returned.
   */
  method DumpUsage(fs: FileStore, s: Settings, base: string, startUsage: Usage, endUsage: Usage, startNs: int, endNs: int)
    returns (error: Option<string>)
    modifies fs`contents
    ensures var filename := UsagePath(s, base);
      filename in fs.openable ==>
      error == None
      && fs.contents == old(fs.contents)[filename := TextOf(old(fs.contents), filename)
           + UsageBlock(WallMicros(startNs, endNs), CpuMicros(startUsage.utime, endUsage.utime),
                        CpuMicros(startUsage.stime, endUsage.stime))]
    ensures var filename := UsagePath(s, base);
      filename !in fs.openable ==>
      error == Some("Failed to open file " + filename + " for writing!") && fs.contents == old(fs.contents)
  {
    var filename := UsagePath(s, base);
    var userTime := (endUsage.utime.sec - startUsage.utime.sec) * 1000000;
    userTime := userTime + (endUsage.utime.usec - startUsage.utime.usec);
    var systemTime := (endUsage.stime.sec - startUsage.stime.sec) * 1000000;
    systemTime := systemTime + (endUsage.stime.usec - startUsage.stime.usec);
    var wallTime := WallMicros(startNs, endNs);
    var ok := fs.Append(filename, UsageBlock(wallTime, userTime, systemTime));
    if ok {
      error := None;
    } else {
      error := Some("Failed to open file " + filename + " for writing!");
    }
  }

  /** The counter file and the usage report of a run are different files. */
  lemma CounterAndUsagePathsDiffer(s: Settings, base: string)
    ensures CounterLogPath(s, base) != UsagePath(s, base)
  {
    var c, u := CounterLogPath(s, base), UsagePath(s, base);
    assert c[|c| - 1] == ".csv"[3] by { assert c[|c| - 4..] == ".csv"; }
    assert u[|u| - 1] == ".usage"[5] by { assert u[|u| - 6..] == ".usage"; }
  }

  /**
   * The end of a run for the counter file: `main` stops the dumper, which
   * appends a final row; the usage report that follows goes to another file
   * (`CounterAndUsagePathsDiffer`); when `main` returns, destroying the
   * global dumper stops it again. The counter file thus ends with two final
   * rows of the same counters.
   */
  method StopAtExit(dumper: CounterDumper.CounterDumper, fs: FileStore, stopNs: nat, exitNs: nat)
    requires dumper.startTime <= stopNs <= exitNs
    modifies dumper`running, fs`contents
    ensures !dumper.running
    ensures var c, start, values := dumper.filename, old(dumper.startTime), old(dumper.counter.counters[..]);
      c in fs.openable ==>
      fs.contents == old(fs.contents)[c := TextOf(old(fs.contents), c)
                       + CounterDumper.DumpRow(stopNs - start, values)
                       + CounterDumper.DumpRow(exitNs - start, values)]
    ensures dumper.filename !in fs.openable ==> fs.contents == old(fs.contents)
  {
    var _ := dumper.Stop(stopNs, fs);
    var _ := dumper.Destroy(exitNs, fs);
  }

  // ---------------------------------------------------------------------
  // Starting the coroutines

  /** The lock a coroutine takes around its counter update. */
  datatype MutexKind = StdMutex | CoroMutex

  /** Target `m` selects `std::mutex`; every other target, `coroMutex`. */
  function MutexFor(target: string): (k: MutexKind)
    ensures k == StdMutex <==> target == "m"
  {
    if target == "m" then StdMutex else CoroMutex
  }

  /** Coroutine `coroutine` works on counter and mutex number `slot`. */
  datatype Binding = Binding(coroutine: nat, slot: nat, kind: MutexKind)

  /**
   * The coroutines started by `main`, in order: coroutine `i` is bound to
   * shared object `i mod shared`. With no shared objects and at least one
   * coroutine the modulus is undefined, so that case is excluded here.
   */
  function Plan(coro: nat, shared: nat, target: string): (r: seq<Binding>)
    requires shared > 0 || coro == 0
    ensures |r| == coro
    ensures forall i :: 0 <= i < coro ==> r[i].coroutine == i && r[i].slot == i % shared && r[i].slot < shared
    ensures forall i :: 0 <= i < coro ==> (r[i].kind == StdMutex <==> target == "m")
  {
    if coro == 0 then [] else Plan(coro - 1, shared, target) + [Binding(coro - 1, (coro - 1) % shared, MutexFor(target))]
  }

  /** The loop of `main` that starts the coroutines one by one. */
  method StartCoroutines(coro: nat, shared: nat, target: string) returns (started: seq<Binding>)
    requires shared > 0 || coro == 0
    ensures started == Plan(coro, shared, target)
  {
    started := [];
    for i := 0 to coro
      invariant started == Plan(i, shared, target)
    {
      var idx := i % shared;
      if target == "m" {
        started := started + [Binding(i, idx, StdMutex)];
      } else {
        started := started + [Binding(i, idx, CoroMutex)];
      }
    }
  }

  /** How many of `bindings` use shared object `j`. */
  function Load(bindings: seq<Binding>, j: nat): nat
  {
    if bindings == [] then 0
    else Load(bindings[..|bindings| - 1], j) + (if bindings[|bindings| - 1].slot == j then 1 else 0)
  }

  lemma {:induction false} MulAtLeast(x: nat, b: nat)
    requires x >= 1
    ensures x * b >= b
  {
    if x > 1 {
      MulAtLeast(x - 1, b);
      assert x * b == (x - 1) * b + b;
    }
  }

  /** Quotient and remainder are determined by `a == q * b + r` with `0 <= r < b`. */
  lemma DivModUnique(a: nat, b: nat, q: int, r: int)
    requires b > 0 && 0 <= r < b && a == q * b + r
    ensures q == a / b && r == a % b
  {
    var q0, r0 := a / b, a % b;
    assert a == q0 * b + r0;
    assert q * b - q0 * b == (q - q0) * b;
    if q > q0 {
      MulAtLeast(q - q0, b);
    } else if q < q0 {
      MulAtLeast(q0 - q, b);
    }
  }

  /** Counting one past `c` either wraps the remainder to 0 or raises it by one. */
  lemma DivModNext(c: nat, b: nat)
    requires b > 0
    ensures c % b == b - 1 ==> (c + 1) / b == c / b + 1 && (c + 1) % b == 0
    ensures c % b < b - 1 ==> (c + 1) / b == c / b && (c + 1) % b == c % b + 1
  {
    var q, r := c / b, c % b;
    assert c == q * b + r;
    if r == b - 1 {
      assert c + 1 == (q + 1) * b + 0;
      DivModUnique(c + 1, b, q + 1, 0);
    } else {
      DivModUnique(c + 1, b, q, r + 1);
    }
  }

  /**
   * Round-robin binding spreads the coroutines evenly: object `j` gets
   * `coro / shared` of them, plus one when `j` is below `coro mod shared`.
   */
  lemma {:induction false} PlanBalanced(coro: nat, shared: nat, target: string, j: nat)
    requires shared > 0 && j < shared
    ensures Load(Plan(coro, shared, target), j) == coro / shared + (if j < coro % shared then 1 else 0)
  {
    if coro > 0 {
      var c := coro - 1;
      var p := Plan(coro, shared, target);
      assert p[..c] == Plan(c, shared, target);
      assert Load(p, j) == Load(Plan(c, shared, target), j) + (if c % shared == j then 1 else 0);
      PlanBalanced(c, shared, target, j);
      DivModNext(c, shared);
      if c % shared == shared - 1 {
        assert coro / shared == c / shared + 1 && coro % shared == 0;
      } else {
        assert coro / shared == c / shared && coro % shared == c % shared + 1;
      }
    }
  }

  /** What `main` does once the options are read. */
  datatype Launch =
    | HelpExit
    | UndefinedModulo
    | Started(counterSize: nat, counterPath: string, dumpPeriodMs: nat, poolSize: nat, coroutines: seq<Binding>)

  /**
   * With `help` set, `main` prints the help and returns 0 before creating the
   * counter, the dumper or the thread pool. Otherwise it creates a counter
   * with one slot per shared object, a dumper on the `.csv` path and a pool
   * of `threads` workers, then starts the coroutines.
   */
  function LaunchOf(s: Settings, now: LocalTime): (r: Launch)
    ensures r == HelpExit <==> s.help
    ensures r == UndefinedModulo <==> !s.help && s.shared == 0 && s.coro > 0
    ensures r.Started? ==>
      r.counterSize == s.shared && r.dumpPeriodMs == s.dump && r.poolSize == s.threads
      && r.counterPath == CounterLogPath(s, LogFilesBase(now, s))
      && |r.coroutines| == s.coro
      && forall i :: 0 <= i < |r.coroutines| ==> r.coroutines[i].slot < r.counterSize
  {
    if s.help then HelpExit
    else if s.shared == 0 && s.coro > 0 then UndefinedModulo
    else Started(s.shared, CounterLogPath(s, LogFilesBase(now, s)), s.dump, s.threads, Plan(s.coro, s.shared, s.target))
  }
}
