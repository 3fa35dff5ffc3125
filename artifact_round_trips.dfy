/**
 * How what the benchmark writes reads back in the Python tools: the rows of
 * the counter file, the resource-usage report, and the names of both files.
 * Each lemma pairs a writer of `src/` with the reader in `tools/` that
 * consumes its output.
 */
module ArtifactRoundTrips {
  import opened Wrappers
  import opened Text
  import opened ArtifactNames
  import Counter
  import CounterDumper
  import BenchmarkMain
  import GenSummary
  import GenBenchGraphic
  import GenBenchUsageDiagram
  import GenBenchUsageDiagramComparison

  // ---------------------------------------------------------------------
  // The resource-usage report
  // ---------------------------------------------------------------------

  /** A character that is not a digit does not occur in a numeral. */
  lemma NotInNumeral(c: char, n: nat)
    requires !IsDigit(c)
    ensures c !in NatToString(n)
  {
    var s := NatToString(n);
    forall i | 0 <= i < |s| ensures s[i] != c {
      assert IsDigit(s[i]);
    }
  }

  /** The first character of each label, and the third of the user-time label. */
  lemma LabelHeads()
    ensures WallLabel[0] == 'W' && UserLabel[0] == 'U' && SystemLabel[0] == 'S'
    ensures |UserLabel| > 2 && UserLabel[2] == 'e'
  {
  }

  /** Neither `W` nor `S` occurs in the header. */
  lemma HeaderLacks()
    ensures 'W' !in BenchmarkMain.UsageHeader && 'S' !in BenchmarkMain.UsageHeader
  {
  }

  /** The header's only `U` starts `Usage`, which does not continue as `User`. */
  lemma HeaderParts()
    ensures BenchmarkMain.UsageHeader == "=== Resource " + "Usage ==="
    ensures 'U' !in "=== Resource " && 'U' !in "Usage ==="[1..]
    ensures "Usage ==="[2] == 'a'
  {
  }

  /** The labels before a label do not hold its first character. */
  lemma LabelsLack()
    ensures 'U' !in WallLabel && 'S' !in WallLabel && 'S' !in UserLabel
  {
  }

  /** The report followed by later text, regrouped around each of its three labelled lines. */
  lemma ReportShape(h: string, a: string, b: string, c: string, f: string, later: string)
    ensures var block := h + "\n" + (a + "\n" + (b + "\n" + (c + "\n" + (f + "\n" + "\n")))) + later;
      && block == (h + "\n") + (a + ("\n" + (b + "\n" + (c + "\n" + (f + "\n" + "\n"))) + later))
      && block == (h + "\n" + a + "\n") + (b + ("\n" + (c + "\n" + (f + "\n" + "\n")) + later))
      && block == (h + "\n" + a + "\n" + b + "\n") + (c + ("\n" + (f + "\n" + "\n") + later))
  {
  }

  /** A header made of two parts, regrouped around the first character of the second. */
  lemma HeaderRegroup(q: string, g: string, a: string, z: string)
    requires |g| > 0
    ensures (q + g) + "\n" + a + "\n" + z == q + [g[0]] + (g[1..] + "\n" + a + "\n") + z
  {
    assert g == [g[0]] + g[1..];
  }

  /**
   * Text without the tag's first character, then one character that starts
   * no match, then more such text: the search goes on after all of it.
   */
  lemma {:induction false} SkipNearMiss(q: string, u: char, r: string, z: string, tag: string)
    requires |tag| > 2 && tag[0] !in q && tag[0] !in r
    requires |r| >= 2 && r[1] != tag[2]
    ensures FindLabelledNumber(q + [u] + r + z, tag) == FindLabelledNumber(z, tag)
  {
    var s := [u] + r + z;
    assert q + [u] + r + z == q + s;
    FindSkipsText(q, s, tag);
    assert s[2] == r[1];
    assert !StartsWith(s, tag);
    assert s[1..] == r + z;
    FindSkipsText(r, z, tag);
  }

  lemma ReportWall(wall: nat, user: nat, system: nat, later: string)
    ensures FindLabelledNumber(BenchmarkMain.UsageBlock(wall, user, system) + later, WallLabel) == Some(wall)
  {
    var a := BenchmarkMain.UsageLine(WallLabel, wall);
    var b := BenchmarkMain.UsageLine(UserLabel, user);
    var c := BenchmarkMain.UsageLine(SystemLabel, system);
    var f := BenchmarkMain.UsageFooter;
    ReportShape(BenchmarkMain.UsageHeader, a, b, c, f, later);
    var rest := "\n" + (b + "\n" + (c + "\n" + (f + "\n" + "\n"))) + later;
    assert a == WallLabel + NatToString(wall);
    LabelHeads();
    HeaderLacks();
    FindSkipsText(BenchmarkMain.UsageHeader + "\n", a + rest, WallLabel);
    FindAtLabel(WallLabel, wall, rest);
  }

  lemma ReportUser(wall: nat, user: nat, system: nat, later: string)
    ensures FindLabelledNumber(BenchmarkMain.UsageBlock(wall, user, system) + later, UserLabel) == Some(user)
  {
    var a := BenchmarkMain.UsageLine(WallLabel, wall);
    var b := BenchmarkMain.UsageLine(UserLabel, user);
    var c := BenchmarkMain.UsageLine(SystemLabel, system);
    var f := BenchmarkMain.UsageFooter;
    ReportShape(BenchmarkMain.UsageHeader, a, b, c, f, later);
    var rest := "\n" + (c + "\n" + (f + "\n" + "\n")) + later;
    assert b == UserLabel + NatToString(user);
    LabelHeads();
    LabelsLack();
    NotInNumeral('U', wall);
    var q := "=== Resource ";
    var g := "Usage ===";
    HeaderParts();
    HeaderRegroup(q, g, a, b + rest);
    var r := g[1..] + "\n" + a + "\n";
    assert r[1] == g[2];
    SkipNearMiss(q, g[0], r, b + rest, UserLabel);
    FindAtLabel(UserLabel, user, rest);
  }

  lemma ReportSystem(wall: nat, user: nat, system: nat, later: string)
    ensures FindLabelledNumber(BenchmarkMain.UsageBlock(wall, user, system) + later, SystemLabel) == Some(system)
  {
    var a := BenchmarkMain.UsageLine(WallLabel, wall);
    var b := BenchmarkMain.UsageLine(UserLabel, user);
    var c := BenchmarkMain.UsageLine(SystemLabel, system);
    var f := BenchmarkMain.UsageFooter;
    ReportShape(BenchmarkMain.UsageHeader, a, b, c, f, later);
    var rest := "\n" + (f + "\n" + "\n") + later;
    assert a == WallLabel + NatToString(wall);
    assert b == UserLabel + NatToString(user);
    assert c == SystemLabel + NatToString(system);
    LabelHeads();
    HeaderLacks();
    LabelsLack();
    NotInNumeral('S', wall);
    NotInNumeral('S', user);
    FindSkipsText(BenchmarkMain.UsageHeader + "\n" + a + "\n" + b + "\n", c + rest, SystemLabel);
    FindAtLabel(SystemLabel, system, rest);
  }

  /**
   * `parse_usage_file` of either usage tool reads back the times `dumpUsage`
   * wrote, whatever the file holds after the report: when runs append
   * several reports to one file, the first one is read.
   */
  lemma UsageReportReadBack(wall: nat, user: nat, system: nat, later: string)
    ensures GenBenchUsageDiagram.ParseUsageFile(BenchmarkMain.UsageBlock(wall, user, system) + later)
         == Some(GenBenchUsageDiagram.UsageTimes(wall, user, system))
  {
    ReportWall(wall, user, system, later);
    ReportUser(wall, user, system, later);
    ReportSystem(wall, user, system, later);
    TimesFromFigures(BenchmarkMain.UsageBlock(wall, user, system) + later, wall, user, system);
  }

  lemma TimesFromFigures(content: string, wall: nat, user: nat, system: nat)
    requires FindLabelledNumber(content, WallLabel) == Some(wall)
    requires FindLabelledNumber(content, UserLabel) == Some(user)
    requires FindLabelledNumber(content, SystemLabel) == Some(system)
    ensures GenBenchUsageDiagram.ParseUsageFile(content) == Some(GenBenchUsageDiagram.UsageTimes(wall, user, system))
  {
  }

  /** The comparison tool reads the user and system times of the report and adds them up. */
  lemma UsageTotalsReadBack(wall: nat, user: nat, system: nat, later: string)
    ensures GenBenchUsageDiagramComparison.ParseUsageFile(BenchmarkMain.UsageBlock(wall, user, system) + later)
         == Some(GenBenchUsageDiagramComparison.UsageTotals(user, system, user + system))
  {
    ReportUser(wall, user, system, later);
    ReportSystem(wall, user, system, later);
    TotalsFromFigures(BenchmarkMain.UsageBlock(wall, user, system) + later, user, system);
  }

  lemma TotalsFromFigures(content: string, user: nat, system: nat)
    requires FindLabelledNumber(content, UserLabel) == Some(user)
    requires FindLabelledNumber(content, SystemLabel) == Some(system)
    ensures GenBenchUsageDiagramComparison.ParseUsageFile(content)
         == Some(GenBenchUsageDiagramComparison.UsageTotals(user, system, user + system))
  {
  }

  // ---------------------------------------------------------------------
  // The counter file
  // ---------------------------------------------------------------------

  /** Every field read as an integer, in order; `None` when any field is not one. */
  function ParseIntegers(fields: seq<string>): (r: Option<seq<int>>)
    ensures r.Some? <==> forall i :: 0 <= i < |fields| ==> ParseInteger(fields[i]).Some?
    ensures r.Some? ==> |r.value| == |fields| && forall i :: 0 <= i < |fields| ==> ParseInteger(fields[i]) == Some(r.value[i])
    decreases |fields|
  {
    if fields == [] then Some([])
    else
      var head :- ParseInteger(fields[0]);
      var tail :- ParseIntegers(fields[1..]);
      Some([head] + tail)
  }

  /**
   * One line of a counter file as `pd.read_csv(header=None)` reads it: the
   * first field is the time as text and every other field an integer.
   */
  function ReadCsvLine(line: string): (r: Option<GenSummary.CsvRow>)
    ensures r.None? ==> exists i :: 1 <= i < |Split(line, ',')| && ParseInteger(Split(line, ',')[i]).None?
    ensures var rest := Split(line, ',')[1..];
      r.Some? ==>
      && r.value.time == Split(line, ',')[0]
      && |r.value.fields| == |rest|
      && forall i :: 0 <= i < |rest| ==> ParseInteger(rest[i]) == Some(r.value.fields[i])
  {
    var fields := Split(line, ',');
    match ParseIntegers(fields[1..])
    case None =>
      var i :| 0 <= i < |fields[1..]| && ParseInteger(fields[1..][i]).None?;
      assert fields[1..][i] == fields[i + 1];
      None
    case Some(ints) => Some(GenSummary.CsvRow(fields[0], ints))
  }

  /** The numerals the dumper writes read back as the counters. */
  lemma {:induction false} ParseNumerals(values: seq<int>)
    ensures ParseIntegers(CounterDumper.Numerals(values)) == Some(values)
    decreases |values|
  {
    if values != [] {
      var ns := CounterDumper.Numerals(values);
      assert ns[1..] == CounterDumper.Numerals(values[1..]);
      ParseNumerals(values[1..]);
      IntToStringRoundTrip(values[0]);
      assert [values[0]] + values[1..] == values;
    }
  }

  /**
   * A row `CounterDumper::dump` appends reads back as its time and the
   * counters followed by their total, provided there is at least one counter.
   */
  lemma DumpRowReadBack(elapsed: nat, values: seq<int>)
    requires values != []
    ensures var row := CounterDumper.DumpRow(elapsed, values);
      && row[|row| - 1] == '\n'
      && ReadCsvLine(row[..|row| - 1])
         == Some(GenSummary.CsvRow(CounterDumper.ClockField(CounterDumper.ClockOf(elapsed)), values + [Counter.Sum(values)]))
  {
    var c := CounterDumper.ClockOf(elapsed);
    var total := Counter.Sum(values);
    CounterDumper.RowFields(c, values, total);
    FieldsAfterTime(CounterDumper.ClockField(c), values, total);
    ParseNumerals(values + [total]);
  }

  /** The fields after the time are the numerals of the counters followed by their total. */
  lemma FieldsAfterTime(time: string, values: seq<int>, total: int)
    ensures ([time] + CounterDumper.Numerals(values) + [IntToString(total)])[1..] == CounterDumper.Numerals(values + [total])
  {
    var fields := [time] + CounterDumper.Numerals(values) + [IntToString(total)];
    assert fields[1..] == CounterDumper.Numerals(values) + [IntToString(total)];
  }

  /** The rows a reader finds in a file of dumps of `n` counters each. */
  function DumpedRows(clocks: seq<CounterDumper.Clock>, snapshots: seq<seq<int>>): (rows: seq<GenSummary.CsvRow>)
    requires |clocks| == |snapshots|
    ensures |rows| == |snapshots|
    ensures forall k :: 0 <= k < |rows| ==>
      rows[k] == GenSummary.CsvRow(CounterDumper.ClockField(clocks[k]), snapshots[k] + [Counter.Sum(snapshots[k])])
  {
    seq(|snapshots|, k requires 0 <= k < |snapshots| =>
      GenSummary.CsvRow(CounterDumper.ClockField(clocks[k]), snapshots[k] + [Counter.Sum(snapshots[k])]))
  }

  /**
   * `process_csv` on a dumped file: the total is the sum of the counters of
   * the last dump, and the mean is the mean of every counter of every dump;
   * `cv` is NaN exactly when every dump shows only zero counters.
   */
  lemma DumpedFileStats(clocks: seq<CounterDumper.Clock>, snapshots: seq<seq<int>>, n: nat)
    requires |clocks| == |snapshots| > 0 && n > 0
    requires forall k :: 0 <= k < |snapshots| ==> |snapshots[k]| == n
    ensures var st := GenSummary.ProcessCsv(DumpedRows(clocks, snapshots));
      && st.Some?
      && st.value.totalSum == Counter.Sum(GenSummary.Last(snapshots))
      && st.value.mean == Some(GenSummary.GridSum(snapshots) as real / GenSummary.Cells(|snapshots|, n) as real)
      && st.value.maxDiff == Some(GenSummary.SpreadSum(snapshots) as real / |snapshots| as real)
      && st.value.maxDiff.value >= 0.0
      && (st.value.cvUndefined <==> forall k, c :: 0 <= k < |snapshots| && 0 <= c < n ==> snapshots[k][c] == 0)
  {
    var rows := DumpedRows(clocks, snapshots);
    DumpedGrid(clocks, snapshots, n);
    assert |rows[0].fields| - 1 == n;
  }

  /** The dumped rows are `n + 1` wide, their counter columns are the dumps and their last total is the last dump's sum. */
  lemma DumpedGrid(clocks: seq<CounterDumper.Clock>, snapshots: seq<seq<int>>, n: nat)
    requires |clocks| == |snapshots| > 0
    requires forall k :: 0 <= k < |snapshots| ==> |snapshots[k]| == n
    ensures var rows := DumpedRows(clocks, snapshots);
      && |rows[0].fields| == n + 1
      && GenSummary.Rectangular(rows, n + 1)
      && GenSummary.Grid(rows) == snapshots
      && GenSummary.Last(GenSummary.Last(rows).fields) == Counter.Sum(GenSummary.Last(snapshots))
  {
    var rows := DumpedRows(clocks, snapshots);
    var g := GenSummary.Grid(rows);
    forall k | 0 <= k < |g| ensures g[k] == snapshots[k] {
      assert g[k] == (snapshots[k] + [Counter.Sum(snapshots[k])])[..n];
    }
  }

  /** `df.iloc[:, 1:-1]` and `df.iloc[:, -1]` of a dumped row are the counters and their total. */
  lemma PlotColumnsOfDump(clock: CounterDumper.Clock, values: seq<int>)
    ensures var r := GenBenchGraphic.PlotColumns(GenSummary.CsvRow(CounterDumper.ClockField(clock), values + [Counter.Sum(values)]));
      r.counters == values && r.total == Some(Counter.Sum(values))
  {
    var r := GenBenchGraphic.PlotColumns(GenSummary.CsvRow(CounterDumper.ClockField(clock), values + [Counter.Sum(values)]));
    assert r.counters == (r.counters + [r.total.value])[..|values|];
  }

  // ---------------------------------------------------------------------
  // The file names
  // ---------------------------------------------------------------------

  /** A path the benchmark builds, grouped as directory, `/` and file name. */
  lemma PathShape(dir: string, base: string, ext: string)
    ensures BenchmarkMain.OutputPath(dir, base, ext) == dir + "/" + (base + ("." + ext))
  {
  }

  /**
   * `gen_bench_graphic.py` reads, from the counter file's path as the
   * benchmark builds it, the timestamp, the five numbers and the target.
   */
  lemma CounterFileNamesItsRun(now: BenchmarkMain.LocalTime, s: BenchmarkMain.Settings)
    requires 1000 <= now.year <= 9999
    requires now.month < 100 && now.day < 100 && now.hour < 100 && now.minute < 100 && now.second < 100
    requires |s.target| > 0 && AllWordChars(s.target)
    ensures StampShape(BenchmarkMain.FormatStamp(now))
    ensures GenBenchGraphic.ParseFilename(BenchmarkMain.CounterLogPath(s, BenchmarkMain.LogFilesBase(now, s)))
         == Some(RunFileFields(StampText(BenchmarkMain.FormatStamp(now)), BenchmarkMain.ParamsOf(s), s.target))
  {
    var base := BenchmarkMain.LogFilesBase(now, s);
    BenchmarkMain.StampShapeOfFormat(now);
    PathShape(s.outputDir, base, "csv");
    DotCsvAndDotUsage();
    GenBenchGraphic.ParseRunFile(s.outputDir, BenchmarkMain.FormatStamp(now), BenchmarkMain.ParamsOf(s), s.target);
  }

  /** `gen_bench_usage_diagram.py` reads the same fields from the usage report's path. */
  lemma UsageFileNamesItsRun(now: BenchmarkMain.LocalTime, s: BenchmarkMain.Settings)
    requires 1000 <= now.year <= 9999
    requires now.month < 100 && now.day < 100 && now.hour < 100 && now.minute < 100 && now.second < 100
    requires |s.target| > 0 && AllWordChars(s.target)
    ensures StampShape(BenchmarkMain.FormatStamp(now))
    ensures GenBenchUsageDiagram.ParseFilename(BenchmarkMain.UsagePath(s, BenchmarkMain.LogFilesBase(now, s)))
         == Some(RunFileFields(StampText(BenchmarkMain.FormatStamp(now)), BenchmarkMain.ParamsOf(s), s.target))
  {
    var base := BenchmarkMain.LogFilesBase(now, s);
    BenchmarkMain.StampShapeOfFormat(now);
    PathShape(s.outputDir, base, "usage");
    DotCsvAndDotUsage();
    GenBenchUsageDiagram.ParseRunFile(s.outputDir, BenchmarkMain.FormatStamp(now), BenchmarkMain.ParamsOf(s), s.target);
  }

  /** The title a plotting tool gives a target names the mutex the benchmark ran with it. */
  lemma TitleNamesMutex(target: string)
    ensures TargetLabel(target) == "std::mutex" <==> BenchmarkMain.MutexFor(target) == BenchmarkMain.StdMutex
    ensures TargetLabel(target) == "coroMutex" <==> BenchmarkMain.MutexFor(target) == BenchmarkMain.CoroMutex
  {
  }

  /** `t in a + t + b`. */
  lemma {:induction false} ContainsMiddle(a: string, t: string, b: string)
    ensures Contains(a + t + b, t)
    decreases |a|
  {
    if a == [] {
      assert a + t + b == t + b;
      assert (t + b)[..|t|] == t;
    } else {
      assert (a + t + b)[1..] == a[1..] + t + b;
      ContainsMiddle(a[1..], t, b);
    }
  }

  /** `t` spelled in `s` from index `i` on. */
  predicate SpellsAt(s: string, t: string, i: nat)
  {
    i + |t| <= |s| && s[i..i + |t|] == t
  }

  /** No index of `s` starts `t`: `t` is not in `s`. */
  lemma {:induction false} NoWindowNotContains(s: string, t: string)
    requires forall i: nat :: !SpellsAt(s, t, i)
    ensures !Contains(s, t)
    decreases |s|
  {
    assert !StartsWith(s, t) by {
      assert !SpellsAt(s, t, 0);
      if |t| <= |s| {
        assert s[..|t|] == s[0..|t|];
      }
    }
    if s != [] {
      forall i: nat ensures !SpellsAt(s[1..], t, i) {
        assert !SpellsAt(s, t, i + 1);
        if i + |t| <= |s[1..]| {
          assert s[1..][i..i + |t|] == s[i + 1..i + 1 + |t|];
        }
      }
      NoWindowNotContains(s[1..], t);
    }
  }

  /** A timestamp holds digits, `-` and `_` only. */
  lemma StampLacks(stamp: string, c: char)
    requires StampShape(stamp)
    requires !IsDigit(c) && c != '-' && c != '_'
    ensures c !in stamp
  {
    forall k | 0 <= k < 19 ensures stamp[k] != c {
      if k < 4 { assert IsDigit(stamp[0..4][k]); }
      else if 4 < k < 7 { assert IsDigit(stamp[5..7][k - 5]); }
      else if 7 < k < 10 { assert IsDigit(stamp[8..10][k - 8]); }
      else if 10 < k < 13 { assert IsDigit(stamp[11..13][k - 11]); }
      else if 13 < k < 16 { assert IsDigit(stamp[14..16][k - 14]); }
      else if 16 < k { assert IsDigit(stamp[17..19][k - 17]); }
    }
  }

  /**
   * A counter file's name around its `target_…` part: the only `g` of the
   * name is the one of `target`.
   */
  lemma SplitAtTarget(stamp: string, p: RunParams, target: string) returns (a: string, b: string)
    requires StampShape(stamp)
    ensures RunFileBase(stamp, p, target) + ".csv" == a + ("target_" + target) + b
    ensures 'g' !in a && 'g' !in b
  {
    a := stamp + "_threads_" + NatToString(p.threads) + "_coro_" + NatToString(p.coro)
      + "_shared_" + NatToString(p.shared) + "_";
    b := DumpPart(p.dump, p.worktime) + ".csv";
    StampLacks(stamp, 'g');
    NotInNumeral('g', p.threads);
    NotInNumeral('g', p.coro);
    NotInNumeral('g', p.shared);
    NotInNumeral('g', p.dump);
    NotInNumeral('g', p.worktime);
  }

  /** `gen_summary.py` files a counter file of target `cm` under `cm`. */
  lemma VariantOfCm(stamp: string, p: RunParams)
    requires StampShape(stamp)
    ensures GenSummary.Variant(RunFileBase(stamp, p, "cm") + ".csv") == Some("cm")
  {
    var a, b := SplitAtTarget(stamp, p, "cm");
    assert "target_" + "cm" == "target_cm";
    ContainsMiddle(a, "target_cm", b);
  }

  /** With its only `g` in `target_m`, a name does not contain `target_cm`. */
  lemma NoTargetCm(a: string, b: string)
    requires 'g' !in a && 'g' !in b
    ensures !Contains(a + "target_m" + b, "target_cm")
  {
    forall i: nat ensures !SpellsAt(a + "target_m" + b, "target_cm", i) {
      NoTargetCmAt(a, b, i);
    }
    NoWindowNotContains(a + "target_m" + b, "target_cm");
  }

  /** No index of such a name starts `target_cm`: the window's `g` would have to be the one of `target_m`. */
  lemma NoTargetCmAt(a: string, b: string, i: nat)
    requires 'g' !in a && 'g' !in b
    ensures !SpellsAt(a + "target_m" + b, "target_cm", i)
  {
    var s := a + "target_m" + b;
    var t := "target_cm";
    var m := a + "target_m";
    assert s == m + b;
    if i + |t| <= |s| {
      var w := s[i..i + |t|];
      if i + 3 < |a| {
        assert w[3] == s[i + 3] == m[i + 3] == a[i + 3];
      } else if i + 3 >= |a| + 8 {
        assert w[3] == s[i + 3] == b[i + 3 - |m|];
      } else if i != |a| {
        assert w[3] == s[i + 3] == m[i + 3] == "target_m"[i + 3 - |a|];
        OnlyG(i + 3 - |a|);
      } else {
        assert w[7] == s[i + 7] == m[i + 7] == "target_m"[7];
      }
    }
  }

  lemma OnlyG(k: nat)
    requires k < 8 && k != 3
    ensures "target_m"[k] != 'g'
  {
  }

  /** `gen_summary.py` files a counter file of target `m` under `m`. */
  lemma VariantOfM(stamp: string, p: RunParams)
    requires StampShape(stamp)
    ensures GenSummary.Variant(RunFileBase(stamp, p, "m") + ".csv") == Some("m")
  {
    var a, b := SplitAtTarget(stamp, p, "m");
    assert "target_" + "m" == "target_m";
    ContainsMiddle(a, "target_m", b);
    NoTargetCm(a, b);
  }
}
