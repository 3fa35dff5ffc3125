/**
 * `tools/gen_bench_graphic.py`: plots one counter file. The model covers what
 * the plot is built from: the run parameters read from the file's name, the
 * columns taken from each row, the title's name for the target and the name
 * of the image written. The drawing itself is not modelled.
 */
module GenBenchGraphic {
  import opened Wrappers
  import opened Text
  import opened ArtifactNames
  import PyPath
  import GenSummary

  /**
   * `parse_filename`: the run-file pattern ending `.csv`, matched at the
   * start of the basename, so a directory part never matters.
   */
  function ParseFilename(filename: string): (r: Option<RunFileFields>)
    ensures r.Some? ==> |r.value.timestamp| == 19 && r.value.timestamp[10] == ' '
    ensures r.Some? ==> |r.value.target| > 0 && AllWordChars(r.value.target)
  {
    MatchRunFile(PyPath.Basename(filename), "csv")
  }

  /** Whatever directory the file sits in, the parameters read are those of its own name. */
  lemma ParseIgnoresDirectory(dir: string, name: string)
    requires '/' !in name
    ensures ParseFilename(dir + "/" + name) == ParseFilename(name)
  {
    PyPath.BasenameOfJoined(dir, name);
    PyPath.BasenameOfBareName(name);
  }

  /** A counter file named by the benchmark, in any directory, reads back as the fields of its name. */
  lemma ParseRunFile(dir: string, stamp: string, p: RunParams, target: string)
    requires StampShape(stamp)
    requires |target| > 0 && AllWordChars(target)
    ensures ParseFilename(dir + "/" + (RunFileBase(stamp, p, target) + ".csv"))
         == Some(RunFileFields(StampText(stamp), p, target))
  {
    RunFileBaseChars(stamp, p, target);
    RunFileRoundTrip(stamp, p, target, "csv", "");
    DotExtensionRegroup(RunFileBase(stamp, p, target), "csv");
    DotCsvAndDotUsage();
    ParseAnyDirectory(dir, RunFileBase(stamp, p, target) + ".csv");
  }

  lemma ParseAnyDirectory(dir: string, name: string)
    requires '/' !in name
    ensures ParseFilename(dir + "/" + name) == MatchRunFile(name, "csv")
  {
    ParseIgnoresDirectory(dir, name);
    PyPath.BasenameOfBareName(name);
  }

  /** What one row contributes to the plot: its time, the counter columns and the total column. */
  datatype PlotRow = PlotRow(time: string, counters: seq<int>, total: Option<int>)

  /**
   * `df.iloc[:, 1:-1]` and `df.iloc[:, -1]` on one row: the counters are the
   * integer fields except the last, which is the total. A row with only the
   * time field has no counters, and its last column is the time itself, which
   * is not a number (`None`).
   */
  function PlotColumns(row: GenSummary.CsvRow): (r: PlotRow)
    ensures r.time == row.time
    ensures row.fields != [] ==> r.total == Some(row.fields[|row.fields| - 1]) && r.counters + [r.total.value] == row.fields
    ensures row.fields == [] ==> r.counters == [] && r.total == None
  {
    if row.fields == [] then PlotRow(row.time, [], None)
    else PlotRow(row.time, row.fields[..|row.fields| - 1], Some(row.fields[|row.fields| - 1]))
  }

  /** `filename.replace('.csv', '.png')`: every `.csv` in the whole path is replaced. */
  function OutputName(filename: string): (r: string)
  {
    ReplaceAll(filename, ".csv", ".png")
  }

  /** A name ending `.csv` gives an image name ending `.png`, whatever came before. */
  lemma OutputNameEnds(filename: string)
    requires EndsWith(filename, ".csv")
    ensures OutputName(filename) == OutputName(filename[..|filename| - 4]) + ".png"
    ensures EndsWith(OutputName(filename), ".png")
  {
    var base := filename[..|filename| - 4];
    assert filename == base + ".csv";
    ReplaceAllAtEnd(base, ".csv", ".png");
  }

  /** A path whose only `.csv` is its extension becomes the same path ending `.png`. */
  lemma OutputNameOfRunFile(base: string)
    requires !Contains(base, ".csv")
    ensures OutputName(base + ".csv") == base + ".png"
  {
    ReplaceAllAtEnd(base, ".csv", ".png");
    ReplaceAllWithout(base, ".csv", ".png");
  }

  /** What `plot_benchmark_results` draws from, or why it stops. */
  datatype GraphicPlan =
    | NameNotParsed
    | Plot(title: string, params: RunParams, rows: seq<PlotRow>, output: string)

  /**
   * `plot_benchmark_results`: a name that does not parse stops the tool before
   * the file is read; otherwise every row is plotted under the target's title
   * and the image is saved next to the input.
   */
  function PlotBenchmarkResults(filename: string, rows: seq<GenSummary.CsvRow>): (r: GraphicPlan)
    ensures r.NameNotParsed? <==> ParseFilename(filename).None?
    ensures r.Plot? ==>
      && r.params == ParseFilename(filename).value.params
      && (r.title == "std::mutex" <==> ParseFilename(filename).value.target == "m")
      && |r.rows| == |rows|
      && (forall i :: 0 <= i < |rows| ==> r.rows[i] == PlotColumns(rows[i]))
      && r.output == OutputName(filename)
  {
    match ParseFilename(filename)
    case None => NameNotParsed
    case Some(f) =>
      Plot(TargetLabel(f.target), f.params, seq(|rows|, i requires 0 <= i < |rows| => PlotColumns(rows[i])), OutputName(filename))
  }
}
