/**
 * `tools/gen_bench_usage_diagram.py`: draws the wall, user and system times
 * of one resource-usage report. The model covers the run parameters read
 * from the report's name, the three figures read from its text, the title's
 * name for the target and the name of the image written; the file's text is
 * an input and the drawing is not modelled.
 */
module GenBenchUsageDiagram {
  import opened Wrappers
  import opened Text
  import opened ArtifactNames
  import PyPath

  /**
   * `parse_filename`: the run-file pattern ending `.usage`, matched at the
   * start of the basename, so a directory part never matters.
   */
  function ParseFilename(filename: string): (r: Option<RunFileFields>)
    ensures r.Some? ==> |r.value.timestamp| == 19 && r.value.timestamp[10] == ' '
    ensures r.Some? ==> |r.value.target| > 0 && AllWordChars(r.value.target)
  {
    MatchRunFile(PyPath.Basename(filename), "usage")
  }

  /** Whatever directory the report sits in, the parameters read are those of its own name. */
  lemma ParseIgnoresDirectory(dir: string, name: string)
    requires '/' !in name
    ensures ParseFilename(dir + "/" + name) == ParseFilename(name)
  {
    PyPath.BasenameOfJoined(dir, name);
    PyPath.BasenameOfBareName(name);
  }

  /** A report named by the benchmark, in any directory, reads back as the fields of its name. */
  lemma ParseRunFile(dir: string, stamp: string, p: RunParams, target: string)
    requires StampShape(stamp)
    requires |target| > 0 && AllWordChars(target)
    ensures ParseFilename(dir + "/" + (RunFileBase(stamp, p, target) + ".usage"))
         == Some(RunFileFields(StampText(stamp), p, target))
  {
    RunFileBaseChars(stamp, p, target);
    RunFileRoundTrip(stamp, p, target, "usage", "");
    DotExtensionRegroup(RunFileBase(stamp, p, target), "usage");
    DotCsvAndDotUsage();
    ParseAnyDirectory(dir, RunFileBase(stamp, p, target) + ".usage");
  }

  lemma ParseAnyDirectory(dir: string, name: string)
    requires '/' !in name
    ensures ParseFilename(dir + "/" + name) == MatchRunFile(name, "usage")
  {
    ParseIgnoresDirectory(dir, name);
    PyPath.BasenameOfBareName(name);
  }

  /** The three figures of a report, in microseconds. */
  datatype UsageTimes = UsageTimes(wall: nat, user: nat, system: nat)

  /**
   * `parse_usage_file` on the report's text: each figure is the number after
   * the first occurrence of its label that is followed by a digit; a report
   * missing any of the three gives `None`.
   */
  function ParseUsageFile(content: string): (r: Option<UsageTimes>)
    ensures r.Some? <==>
      && FindLabelledNumber(content, WallLabel).Some?
      && FindLabelledNumber(content, UserLabel).Some?
      && FindLabelledNumber(content, SystemLabel).Some?
    ensures r.Some? ==>
      && Some(r.value.wall) == FindLabelledNumber(content, WallLabel)
      && Some(r.value.user) == FindLabelledNumber(content, UserLabel)
      && Some(r.value.system) == FindLabelledNumber(content, SystemLabel)
  {
    var wall :- FindLabelledNumber(content, WallLabel);
    var user :- FindLabelledNumber(content, UserLabel);
    var system :- FindLabelledNumber(content, SystemLabel);
    Some(UsageTimes(wall, user, system))
  }

  /** `filename.replace('.usage', '_usage.png')`: every `.usage` in the whole path is replaced. */
  function OutputName(filename: string): (r: string)
  {
    ReplaceAll(filename, ".usage", "_usage.png")
  }

  /** A name ending `.usage` gives an image name ending `_usage.png`, whatever came before. */
  lemma OutputNameEnds(filename: string)
    requires EndsWith(filename, ".usage")
    ensures OutputName(filename) == OutputName(filename[..|filename| - 6]) + "_usage.png"
    ensures EndsWith(OutputName(filename), "_usage.png")
  {
    var base := filename[..|filename| - 6];
    assert filename == base + ".usage";
    ReplaceAllAtEnd(base, ".usage", "_usage.png");
  }

  /** A path whose only `.usage` is its extension keeps its stem and ends `_usage.png`. */
  lemma OutputNameOfRunFile(base: string)
    requires !Contains(base, ".usage")
    ensures OutputName(base + ".usage") == base + "_usage.png"
  {
    ReplaceAllAtEnd(base, ".usage", "_usage.png");
    ReplaceAllWithout(base, ".usage", "_usage.png");
  }

  /** What `plot_usage_results` draws, or why it stops. */
  datatype UsagePlan =
    | NameNotParsed
    | UsageNotParsed
    | Plot(title: string, params: RunParams, times: UsageTimes, output: string)

  /**
   * `plot_usage_results`: a name that does not parse stops the tool first, a
   * report without the three figures next; otherwise the three bars are drawn
   * under the target's title and the image is saved next to the input.
   */
  function PlotUsageResults(filename: string, content: string): (r: UsagePlan)
    ensures r.NameNotParsed? <==> ParseFilename(filename).None?
    ensures r.UsageNotParsed? <==> ParseFilename(filename).Some? && ParseUsageFile(content).None?
    ensures r.Plot? ==>
      && r.params == ParseFilename(filename).value.params
      && (r.title == "std::mutex" <==> ParseFilename(filename).value.target == "m")
      && Some(r.times) == ParseUsageFile(content)
      && r.output == OutputName(filename)
  {
    match ParseFilename(filename)
    case None => NameNotParsed
    case Some(f) =>
      match ParseUsageFile(content)
      case None => UsageNotParsed
      case Some(t) => Plot(TargetLabel(f.target), f.params, t, OutputName(filename))
  }
}
