/**
 * `tools/gen_bench_usage_diagram_comparison.py`: draws the user, system and
 * total times of a resource-usage report next to those of the report with
 * the same run parameters measured with the other mutex. The model covers
 * reading the parameters from the names, picking the pair out of a directory
 * listing and reading the figures; listings and report texts are inputs and
 * the drawing is not modelled.
 */
module GenBenchUsageDiagramComparison {
  import opened Wrappers
  import opened Text
  import opened ArtifactNames
  import PyPath

  /**
   * `parse_filename`: the run-file pattern ending `.usage`, matched at the
   * start of the whole argument (not its basename) and not anchored at its end.
   */
  function ParseFilename(filename: string): (r: Option<RunFileFields>)
    ensures r.Some? ==> |filename| >= 19 && StampShape(filename[..19])
    ensures r.Some? ==> |r.value.timestamp| == 19 && r.value.timestamp[10] == ' '
    ensures r.Some? ==> |r.value.target| > 0 && AllWordChars(r.value.target)
  {
    MatchRunFile(filename, "usage")
  }

  /** A path whose directory does not start with a digit, such as `results/…` or `./…`, never parses. */
  lemma DirectoryPathNotParsed(dir: string, name: string)
    requires dir != [] && !IsDigit(dir[0])
    ensures ParseFilename(dir + "/" + name) == None
  {
    var s := dir + "/" + name;
    if |s| >= 19 {
      assert s[..19][0..4][0] == dir[0];
    }
  }

  /** A bare report name reads back as its fields, whatever text follows `.usage`. */
  lemma ParseRunFile(stamp: string, p: RunParams, target: string, rest: string)
    requires StampShape(stamp)
    requires |target| > 0 && AllWordChars(target)
    ensures ParseFilename(RunFileBase(stamp, p, target) + "." + "usage" + rest)
         == Some(RunFileFields(StampText(stamp), p, target))
  {
    RunFileRoundTrip(stamp, p, target, "usage", rest);
  }

  /**
   * The test applied to each listing entry: it ends `.usage`, its name
   * parses, and its five numbers and its target equal the wanted ones; the
   * timestamp is not compared.
   */
  predicate IsPairEntry(entry: string, p: RunParams, pairTarget: string)
  {
    EndsWith(entry, ".usage")
    && ParseFilename(entry).Some?
    && ParseFilename(entry).value.params == p
    && ParseFilename(entry).value.target == pairTarget
  }

  function PairTest(p: RunParams, pairTarget: string): (test: string -> bool)
  {
    entry => IsPairEntry(entry, p, pairTarget)
  }

  /**
   * `find_pair_file` on a listing of the input's directory: no pair for a
   * name that does not parse or a target other than `m`/`cm`; otherwise the
   * first entry that passes the test, joined to the directory (`.` when
   * there is none).
   */
  function PairFile(filename: string, listing: seq<string>): (r: Option<string>)
    ensures ParseFilename(filename).None? ==> r.None?
    ensures ParseFilename(filename).Some? && PairTarget(ParseFilename(filename).value.target).None? ==> r.None?
  {
    match ParseFilename(filename)
    case None => None
    case Some(f) =>
      match PairTarget(f.target)
      case None => None
      case Some(pair) =>
        match FirstEntry(listing, PairTest(f.params, pair))
        case None => None
        case Some(i) => Some(PyPath.Join(PyPath.DirnameOrDot(filename), listing[i]))
  }

  /** `find_pair_file`, skipping entries with `continue` and returning at the first pair. */
  method FindPairFile(filename: string, listing: seq<string>) returns (r: Option<string>)
    ensures r == PairFile(filename, listing)
  {
    var parsed := ParseFilename(filename);
    if parsed.None? {
      return None;
    }
    var pair := PairTarget(parsed.value.target);
    if pair.None? {
      return None;
    }
    var dirname := PyPath.DirnameOrDot(filename);
    var found := FindFirstEntry(listing, PairTest(parsed.value.params, pair.value));
    if found.None? {
      return None;
    }
    return Some(PyPath.Join(dirname, listing[found.value]));
  }

  /**
   * A found pair is the first listing entry with the input's five numbers and
   * the other target, joined to the input's directory; the pair's target is
   * the input's other variant, so the pair of the pair is the input's variant.
   */
  lemma PairFileIsFirstMatch(filename: string, listing: seq<string>) returns (i: nat)
    requires PairFile(filename, listing).Some?
    ensures ParseFilename(filename).Some? && PairTarget(ParseFilename(filename).value.target).Some?
    ensures var f := ParseFilename(filename).value;
      && i < |listing| && IsPairEntry(listing[i], f.params, PairTarget(f.target).value)
      && (forall j :: 0 <= j < i ==> !IsPairEntry(listing[j], f.params, PairTarget(f.target).value))
      && PairFile(filename, listing) == Some(PyPath.Join(PyPath.DirnameOrDot(filename), listing[i]))
    ensures var f := ParseFilename(filename).value;
      PairTarget(ParseFilename(listing[i]).value.target) == Some(f.target)
  {
    var f := ParseFilename(filename).value;
    var pair := PairTarget(f.target).value;
    i := FirstEntry(listing, PairTest(f.params, pair)).value;
    forall j | 0 <= j < i ensures !IsPairEntry(listing[j], f.params, pair) {
      assert !PairTest(f.params, pair)(listing[j]);
    }
    assert PairTest(f.params, pair)(listing[i]);
  }

  /** With a parsed name and a pairable target, no pair means no entry of the listing passes the test. */
  lemma PairFileMissing(filename: string, listing: seq<string>)
    requires ParseFilename(filename).Some? && PairTarget(ParseFilename(filename).value.target).Some?
    requires PairFile(filename, listing).None?
    ensures var f := ParseFilename(filename).value;
      forall j :: 0 <= j < |listing| ==> !IsPairEntry(listing[j], f.params, PairTarget(f.target).value)
  {
    var f := ParseFilename(filename).value;
    var pair := PairTarget(f.target).value;
    forall j | 0 <= j < |listing| ensures !IsPairEntry(listing[j], f.params, pair) {
      assert !PairTest(f.params, pair)(listing[j]);
    }
  }

  /**
   * For a report of the benchmark named without a directory, a listing
   * holding the report of the same parameters with the other target, under
   * any timestamp, always yields a pair.
   */
  lemma PairOfBenchmarkRun(stamp: string, other: string, p: RunParams, target: string, listing: seq<string>, k: nat)
    requires StampShape(stamp) && StampShape(other)
    requires target == "m" || target == "cm"
    requires k < |listing| && listing[k] == RunFileBase(other, p, PairTarget(target).value) + ".usage"
    ensures PairFile(RunFileBase(stamp, p, target) + ".usage", listing).Some?
  {
    var pair := PairTarget(target).value;
    assert AllWordChars(target) && AllWordChars(pair);
    ParseReport(stamp, p, target);
    ParseReport(other, p, pair);
    assert IsPairEntry(listing[k], p, pair);
    assert PairTest(p, pair)(listing[k]);
  }

  lemma ParseReport(stamp: string, p: RunParams, target: string)
    requires StampShape(stamp)
    requires |target| > 0 && AllWordChars(target)
    ensures EndsWith(RunFileBase(stamp, p, target) + ".usage", ".usage")
    ensures ParseFilename(RunFileBase(stamp, p, target) + ".usage") == Some(RunFileFields(StampText(stamp), p, target))
  {
    DotCsvAndDotUsage();
    ParseRunFile(stamp, p, target, "");
    DotExtensionRegroup(RunFileBase(stamp, p, target), "usage");
  }

  /** The three figures of the comparison, in microseconds. */
  datatype UsageTotals = UsageTotals(user: nat, system: nat, total: nat)

  /**
   * `parse_usage_file` on a report's text: user and system time are each the
   * number after the first occurrence of their label followed by a digit,
   * wall time is not needed, and the total is their sum.
   */
  function ParseUsageFile(content: string): (r: Option<UsageTotals>)
    ensures r.Some? <==>
      FindLabelledNumber(content, UserLabel).Some? && FindLabelledNumber(content, SystemLabel).Some?
    ensures r.Some? ==>
      && Some(r.value.user) == FindLabelledNumber(content, UserLabel)
      && Some(r.value.system) == FindLabelledNumber(content, SystemLabel)
      && r.value.total == r.value.user + r.value.system
  {
    var user :- FindLabelledNumber(content, UserLabel);
    var system :- FindLabelledNumber(content, SystemLabel);
    Some(UsageTotals(user, system, user + system))
  }

  /** What `plot_usage_comparison` draws, or the message it stops with. */
  datatype UsageComparisonPlan =
    | Stopped(message: string)
    | Plot(mainTitle: string, mainFile: string, pairFile: string, main: UsageTotals, pair: UsageTotals)

  /**
   * `plot_usage_comparison`, with the listing of the input's directory and a
   * function giving the text of each file: it stops when the name does not
   * parse, when there is no pair, or when either report lacks its figures.
   */
  function PlotUsageComparison(filename: string, listing: seq<string>, contents: string -> string): (r: UsageComparisonPlan)
    ensures ParseFilename(filename).None? ==> r == Stopped("Failed to parse parameters from filename")
    ensures ParseFilename(filename).Some? && PairFile(filename, listing).None? ==>
      r == Stopped("Error: Could not find pair file for " + filename)
    ensures (&& ParseFilename(filename).Some?
             && PairFile(filename, listing).Some?
             && (ParseUsageFile(contents(filename)).None?
                 || ParseUsageFile(contents(PairFile(filename, listing).value)).None?)) ==>
      r == Stopped("Failed to parse usage data from one of the files")
    ensures r.Plot? <==>
      && ParseFilename(filename).Some?
      && PairFile(filename, listing).Some?
      && ParseUsageFile(contents(filename)).Some?
      && ParseUsageFile(contents(PairFile(filename, listing).value)).Some?
    ensures r.Plot? ==>
      && r.pairFile == PairFile(filename, listing).value
      && Some(r.main) == ParseUsageFile(contents(filename))
      && Some(r.pair) == ParseUsageFile(contents(r.pairFile))
      && (r.mainTitle == "std::mutex" <==> ParseFilename(filename).value.target == "m")
  {
    match ParseFilename(filename)
    case None => Stopped("Failed to parse parameters from filename")
    case Some(f) =>
      match PairFile(filename, listing)
      case None => Stopped("Error: Could not find pair file for " + filename)
      case Some(pairFile) =>
        var mainData := ParseUsageFile(contents(filename));
        var pairData := ParseUsageFile(contents(pairFile));
        if mainData.None? || pairData.None? then Stopped("Failed to parse usage data from one of the files")
        else Plot(TargetLabel(f.target), filename, pairFile, mainData.value, pairData.value)
  }
}
