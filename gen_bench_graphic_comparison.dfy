/**
 * `tools/gen_bench_graphic_comparison.py`: plots a counter file next to the
 * file of the same run parameters measured with the other mutex. The model
 * covers reading the parameters from the name, choosing the other variant
 * and picking the pair out of a directory listing; the listing is an input
 * and the drawing is not modelled.
 */
module GenBenchGraphicComparison {
  import opened Wrappers
  import opened Text
  import opened ArtifactNames
  import PyPath

  /**
   * `parse_filename`: the run-file pattern ending `.csv`, matched at the start
   * of the whole argument (not its basename) and not anchored at its end.
   */
  function ParseFilename(filename: string): (r: Option<RunFileFields>)
    ensures r.Some? ==> |filename| >= 19 && StampShape(filename[..19])
    ensures r.Some? ==> |r.value.timestamp| == 19 && r.value.timestamp[10] == ' '
    ensures r.Some? ==> |r.value.target| > 0 && AllWordChars(r.value.target)
  {
    MatchRunFile(filename, "csv")
  }

  /** A path whose directory does not start with a digit, such as `results/…` or `./…`, never parses. */
  lemma DirectoryPathNotParsed(dir: string, name: string)
    requires dir != [] && !IsDigit(dir[0])
    ensures ParseFilename(dir + "/" + name) == None
  {
    var s := dir + "/" + name;
    if |s| >= 19 {
      assert s[..19][0..4][0] == dir[0];
    }
  }

  /** A bare counter-file name reads back as its fields, whatever text follows `.csv`. */
  lemma ParseRunFile(stamp: string, p: RunParams, target: string, rest: string)
    requires StampShape(stamp)
    requires |target| > 0 && AllWordChars(target)
    ensures ParseFilename(RunFileBase(stamp, p, target) + "." + "csv" + rest)
         == Some(RunFileFields(StampText(stamp), p, target))
  {
    RunFileRoundTrip(stamp, p, target, "csv", rest);
  }

  /**
   * The literal part of the pair pattern: the input's numbers around the
   * other target, then `.csv`. `re.escape` changes none of these characters.
   */
  function PairPattern(p: RunParams, pairTarget: string): string
  {
    "_threads_" + NatToString(p.threads) + "_coro_" + NatToString(p.coro)
    + "_shared_" + NatToString(p.shared) + "_target_" + pairTarget + DumpPart(p.dump, p.worktime) + ".csv"
  }

  /**
   * The last `|lit|` characters of `s` spell `lit` ignoring the case of ASCII
   * letters, and no line feed comes before them (`.` does not match one).
   */
  predicate EndsWithIgnoringCase(s: string, lit: string)
  {
    |lit| <= |s| && '\n' !in s[..|s| - |lit|] && Lower(s[|s| - |lit|..]) == Lower(lit)
  }

  /**
   * `re.compile('^.*' + lit + '$', re.IGNORECASE).match(entry)`: `$` matches
   * at the very end or just before a final line feed.
   */
  predicate MatchesPairPattern(entry: string, lit: string)
  {
    EndsWithIgnoringCase(entry, lit)
    || (entry != [] && entry[|entry| - 1] == '\n' && EndsWithIgnoringCase(entry[..|entry| - 1], lit))
  }

  /** The test `find_pair_file` applies to each listing entry. */
  function PairTest(lit: string): (test: string -> bool)
  {
    entry => MatchesPairPattern(entry, lit)
  }

  /**
   * `find_pair_file` on a listing of the input's directory: no pair for a
   * name that does not parse or a target other than `m`/`cm`; otherwise the
   * first matching entry, joined to the directory (`.` when there is none).
   */
  function PairFile(filename: string, listing: seq<string>): (r: Option<string>)
    ensures ParseFilename(filename).None? ==> r.None?
    ensures ParseFilename(filename).Some? && PairTarget(ParseFilename(filename).value.target).None? ==> r.None?
  {
    match ParseFilename(filename)
    case None => None
    case Some(f) =>
      match PairTarget(f.target)
      case None => None
      case Some(pair) =>
        match FirstEntry(listing, PairTest(PairPattern(f.params, pair)))
        case None => None
        case Some(i) => Some(PyPath.Join(PyPath.DirnameOrDot(filename), listing[i]))
  }

  /** The loop of `find_pair_file`, returning at the first entry that matches. */
  method FindPairFile(filename: string, listing: seq<string>) returns (r: Option<string>)
    ensures r == PairFile(filename, listing)
  {
    var parsed := ParseFilename(filename);
    if parsed.None? {
      return None;
    }
    var pair := PairTarget(parsed.value.target);
    if pair.None? {
      return None;
    }
    var dirname := PyPath.DirnameOrDot(filename);
    var found := FindFirstEntry(listing, PairTest(PairPattern(parsed.value.params, pair.value)));
    if found.None? {
      return None;
    }
    return Some(PyPath.Join(dirname, listing[found.value]));
  }

  /**
   * A found pair is the first listing entry that matches the pattern of the
   * input's parameters with the other target, joined to the input's directory.
   */
  lemma PairFileIsFirstMatch(filename: string, listing: seq<string>) returns (i: nat)
    requires PairFile(filename, listing).Some?
    ensures ParseFilename(filename).Some? && PairTarget(ParseFilename(filename).value.target).Some?
    ensures var f := ParseFilename(filename).value;
      var lit := PairPattern(f.params, PairTarget(f.target).value);
      && i < |listing| && MatchesPairPattern(listing[i], lit)
      && (forall j :: 0 <= j < i ==> !MatchesPairPattern(listing[j], lit))
      && PairFile(filename, listing) == Some(PyPath.Join(PyPath.DirnameOrDot(filename), listing[i]))
  {
    var f := ParseFilename(filename).value;
    var lit := PairPattern(f.params, PairTarget(f.target).value);
    i := FirstEntry(listing, PairTest(lit)).value;
    forall j | 0 <= j < i ensures !MatchesPairPattern(listing[j], lit) {
      assert !PairTest(lit)(listing[j]);
    }
    assert PairTest(lit)(listing[i]);
  }

  /** With a parsed name and a pairable target, no pair means no entry of the listing matches. */
  lemma PairFileMissing(filename: string, listing: seq<string>)
    requires ParseFilename(filename).Some? && PairTarget(ParseFilename(filename).value.target).Some?
    requires PairFile(filename, listing).None?
    ensures var f := ParseFilename(filename).value;
      forall j :: 0 <= j < |listing| ==> !MatchesPairPattern(listing[j], PairPattern(f.params, PairTarget(f.target).value))
  {
    var f := ParseFilename(filename).value;
    var lit := PairPattern(f.params, PairTarget(f.target).value);
    forall j | 0 <= j < |listing| ensures !MatchesPairPattern(listing[j], lit) {
      assert !PairTest(lit)(listing[j]);
    }
  }

  /**
   * The benchmark's counter file of the same parameters with the other
   * target matches, whatever its timestamp.
   */
  lemma RunFileMatchesPattern(stamp: string, p: RunParams, pairTarget: string)
    requires StampShape(stamp)
    ensures MatchesPairPattern(RunFileBase(stamp, p, pairTarget) + ".csv", PairPattern(p, pairTarget))
  {
    PatternOfRunFile(stamp, p, pairTarget);
    forall k | 0 <= k < 19 ensures stamp[k] != '\n' {
      if k < 4 { assert IsDigit(stamp[0..4][k]); }
      else if 4 < k < 7 { assert IsDigit(stamp[5..7][k - 5]); }
      else if 7 < k < 10 { assert IsDigit(stamp[8..10][k - 8]); }
      else if 10 < k < 13 { assert IsDigit(stamp[11..13][k - 11]); }
      else if 13 < k < 16 { assert IsDigit(stamp[14..16][k - 14]); }
      else if 16 < k { assert IsDigit(stamp[17..19][k - 17]); }
    }
    PrefixThenPattern(stamp, PairPattern(p, pairTarget));
  }

  /** A run file's name is its timestamp followed by the pattern's literal. */
  lemma PatternOfRunFile(stamp: string, p: RunParams, pairTarget: string)
    ensures RunFileBase(stamp, p, pairTarget) + ".csv" == stamp + PairPattern(p, pairTarget)
  {
  }

  /** `.*` takes any text without a line feed, so such text followed by the literal matches. */
  lemma PrefixThenPattern(prefix: string, lit: string)
    requires '\n' !in prefix
    ensures MatchesPairPattern(prefix + lit, lit)
  {
    var s := prefix + lit;
    assert s[..|s| - |lit|] == prefix && s[|s| - |lit|..] == lit;
  }

  /**
   * For a counter file of the benchmark named without a directory, a listing
   * holding the file of the same parameters with the other target, under any
   * timestamp, always yields a pair.
   */
  lemma PairOfBenchmarkRun(stamp: string, other: string, p: RunParams, target: string, listing: seq<string>, k: nat)
    requires StampShape(stamp) && StampShape(other)
    requires target == "m" || target == "cm"
    requires k < |listing| && listing[k] == RunFileBase(other, p, PairTarget(target).value) + ".csv"
    ensures PairFile(RunFileBase(stamp, p, target) + ".csv", listing).Some?
  {
    var filename := RunFileBase(stamp, p, target) + ".csv";
    assert AllWordChars(target);
    ParseRunFile(stamp, p, target, "");
    DotExtensionRegroup(RunFileBase(stamp, p, target), "csv");
    DotCsvAndDotUsage();
    assert ParseFilename(filename) == Some(RunFileFields(StampText(stamp), p, target));
    var lit := PairPattern(p, PairTarget(target).value);
    RunFileMatchesPattern(other, p, PairTarget(target).value);
    assert PairTest(lit)(listing[k]);
  }

  /** The two files `plot_benchmark_results` draws, or why it stops before reading either. */
  datatype ComparisonPlan =
    | NameNotParsed
    | PairNotFound(message: string)
    | Plot(mainFile: string, pairFile: string)

  /**
   * `plot_benchmark_results`: a name that does not parse stops the tool, then
   * a missing pair; otherwise both files are read and drawn.
   */
  function PlotBenchmarkResults(filename: string, listing: seq<string>): (r: ComparisonPlan)
    ensures r.NameNotParsed? <==> ParseFilename(filename).None?
    ensures r.PairNotFound? <==> ParseFilename(filename).Some? && PairFile(filename, listing).None?
    ensures r.PairNotFound? ==> r.message == "Error: Could not find pair file for " + filename
    ensures r.Plot? ==> r.mainFile == filename && Some(r.pairFile) == PairFile(filename, listing)
  {
    if ParseFilename(filename).None? then NameNotParsed
    else
      match PairFile(filename, listing)
      case None => PairNotFound("Error: Could not find pair file for " + filename)
      case Some(pair) => Plot(filename, pair)
  }
}
