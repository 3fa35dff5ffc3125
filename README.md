# diploma-2025 run artifacts, modelled in Dafny

The repository benchmarks a coroutine mutex (`coroMutex`) against `std::mutex`.
Around the concurrent core sits a sequential contract, and that contract is what this project models:

- **Writing artifacts.** The C++ benchmark (`src/benchmark/main.cpp`) reads its options, names its run files after a local timestamp and its parameters, and starts the coroutines on round-robin shared objects. Its counter dumper appends one CSV row per dump. At the end it appends a resource-usage report.
- **Reading artifacts.** Five Python tools (`tools/*.py`) read those artifacts back:
  - they parse the run parameters out of the file names;
  - they pair the `m` and `cm` runs of the same parameters;
  - they read the usage figures;
  - they summarise the counter files into a table sorted by threads, shared objects and coroutines.

The pieces are these, one module per file:

- `Counter`: `atomicMultipleCounter` taken sequentially. It is a class over an `array<int>`.
- `CounterDumper`: `counterDumper` as a class, with the row format and the decomposition of elapsed time.
- `Files`: a class standing for files opened in append mode.
- `OptionsParser` and `OptionsManager`: the command-line parser (a class with a loop) and the typed getters.
- `BenchmarkMain`: the option globals and `serializeOptions`, the file names and paths, `dumpUsage`, and the coroutine binding loop.
- `ArtifactNames`: the file-name regexes of the Python tools, written as hand scanners.
  - `re.match` is anchored at the start only.
  - The greedy `(\w+)` backtracks.
  - `re.search` takes the leftmost match.
- `PyPath`: `os.path.basename`, `dirname` and `join`.
- `GenSummary`, `GenBenchGraphic`, `GenBenchGraphicComparison`, `GenBenchUsageDiagram`, `GenBenchUsageDiagramComparison`: the five tools.
- `ArtifactRoundTrips`: the round trips between writer and readers:
  - a usage report reads back as the times written, even with more reports appended after it;
  - a dumped row reads back as its counters and their total;
  - a dumped file's summary gives the last total and the mean of all counters;
  - a benchmark-built path parses back to its parameters;
  - a benchmark-built counter file is classified under its own variant.
- `Text` and `Wrappers`: numerals, padding, splitting, replacing, and `Option`/`Result`.

Directory listings, file texts, CSV rows, clock readings and `getrusage` snapshots are parameters. Nothing touches a file system.

Some behaviour of the code that a reader might not expect, and that the model keeps:

- A ratio with a zero denominator follows IEEE division, as pandas does. A nonzero numerator gives ±infinity; only `0/0` gives NaN.
- When both variants occur anywhere in the table, the comparison columns are added to every row. A row that lacks one variant gets NaN there, rather than having the columns absent. That holds only while both variants keep a `cv` column; see the next point.
- `cv` is NaN for a file whose counter cells are all zero, as in a run with no coroutines. `pivot_table` drops a column that is NaN in every row. So when both variants occur and every file of one variant has only zero counters, the `cv_diff` line raises a `KeyError`. `main` then aborts before writing either table. See `CreateSummaryTable` and `SummaryMain`.
- An empty raw table makes `main` print a notice and write nothing. No empty output table is written.
- `gen_summary.py` reads only the counter CSV files. It reads no usage reports, so no usage-based figure (wall-time ratio, CPU usage) appears in its tables.
- The two comparison tools match their pattern against the whole argument, not its basename. A path whose directory does not start with a digit (`results/...`, `./...`, `/...`) therefore never parses. See `DirectoryPathNotParsed`.
- `main` stops the counter dumper explicitly, and the global dumper's destructor stops it again when `main` returns. Every run's counter file therefore ends with two final rows. See `StopAtExit`.

## Model

| member | source | states |
|---|---|---|
| Counter.AtomicMultipleCounter.constructor | src/benchmark/counter/atomic-multiple-counter.cpp:10-17 | `n` counters are created, all zero |
| Counter.AtomicMultipleCounter.Increment | src/benchmark/counter/atomic-multiple-counter.cpp:19-28 | in range, counter `i` rises by one and every other counter is unchanged; out of range, nothing changes |
| Counter.AtomicMultipleCounter.Decrement | src/benchmark/counter/atomic-multiple-counter.cpp:30-39 | in range, counter `i` drops by one (it may go negative) and the others are unchanged; out of range, nothing changes |
| Counter.AtomicMultipleCounter.Get | src/benchmark/counter/atomic-multiple-counter.cpp:41-49 | counter `i` when in range, 0 otherwise |
| Counter.AtomicMultipleCounter.GetTotal | src/benchmark/counter/atomic-multiple-counter.cpp:51-55 | the accumulation loop from 0 returns the sum of all counters |
| Counter.AtomicMultipleCounter.Size | src/benchmark/counter/atomic-multiple-counter.cpp:57-60 | the number of counters, fixed for the counter's life |
| Counter.SumZeros | src/benchmark/counter/atomic-multiple-counter.cpp:10-17 | a freshly built counter set totals 0 |
| Counter.SumUpdate | src/benchmark/counter/atomic-multiple-counter.cpp:51-55 | changing one counter by `delta` changes the total by exactly `delta` |
| Counter.IncrementTotal | src/benchmark/counter/atomic-multiple-counter.cpp:19-28 | an increment in range raises the total by exactly one |
| Counter.DecrementTotal | src/benchmark/counter/atomic-multiple-counter.cpp:30-39 | a decrement in range lowers the total by exactly one |
| CounterDumper.DecomposeElapsed | src/benchmark/counter/counter-dumper.cpp:61-67 | successive truncation yields minutes < 60, seconds < 60 and ms < 1000, and reading the parts back in mixed radix gives the whole milliseconds of the elapsed time (sub-millisecond time is dropped) |
| CounterDumper.Numerals | src/benchmark/counter/counter-dumper.cpp:74-79 | one unpadded numeral per counter, in index order |
| CounterDumper.CounterFieldsStep | src/benchmark/counter/counter-dumper.cpp:74-79 | each counter adds a `,` (except before the first) and then its numeral |
| CounterDumper.CounterDumper.constructor | src/benchmark/counter/counter-dumper.cpp:10-14 | stores the counter, file name and interval; the dumper is not running |
| CounterDumper.CounterDumper.Start | src/benchmark/counter/counter-dumper.cpp:21-29 | the dumper is running afterwards; the start time is recorded only when it was not already running |
| CounterDumper.CounterDumper.Dump | src/benchmark/counter/counter-dumper.cpp:50-88 | when the file opens, exactly the row for the elapsed time and the current counters is appended to it and no other file changes; otherwise the logged message comes back and nothing changes |
| CounterDumper.CounterDumper.FormatRow | src/benchmark/counter/counter-dumper.cpp:70-82 | the line built by the loop is the time field, the counters in index order, their total, then a line feed |
| CounterDumper.CounterDumper.Stop | src/benchmark/counter/counter-dumper.cpp:31-39 | clears the running flag and always appends one final row |
| CounterDumper.CounterDumper.Destroy | src/benchmark/counter/counter-dumper.cpp:16-19 | the destructor stops the dumper again: one more final row, even after an earlier `stop` |
| CounterDumper.RowFields | src/benchmark/counter/counter-dumper.cpp:70-82 | split at `,`, a row gives the time, each counter and the total: `size()+2` fields (3 with an empty middle field when there are no counters) |
| Text.ZeroPad | src/benchmark/counter/counter-dumper.cpp:70-71 | `setfill('0') << setw(w)` pads to at least `w` characters and keeps a numeral all digits |
| Text.ZeroPadRoundTrip | src/benchmark/counter/counter-dumper.cpp:70-71 | a zero-padded numeral reads back as the number that was padded |
| Text.IntToStringRoundTrip | src/benchmark/counter/counter-dumper.cpp:78 | every signed integer written in decimal reads back as itself |
| Files.FileStore.Append | src/benchmark/main.cpp:284-293 | an append-mode open succeeds exactly on openable paths; then only that file changes, by having the text appended, and a missing file is created |
| OptionsParser.OptionsParser.constructor | src/benchmark/optionsManager/options-parser.h:23-36 | an empty registry, no aliases and no positional arguments |
| OptionsParser.OptionsParser.AddOption | src/benchmark/optionsManager/options-parser.cpp:10-23 | the entry is replaced by (alias, help, takes-value, not set, no value); the alias is recorded only when it is not `'\0'`; every alias keeps naming a registered option |
| OptionsParser.OptionsParser.Parse | src/benchmark/optionsManager/options-parser.cpp:25-93 | `argv[0]` becomes the program name; the loop leaves the options, the positional arguments and the outcome (completed, `--help`, or the first error's message) that the scan function describes; aliases do not change |
| OptionsParser.ParseKeepsRegistry | src/benchmark/optionsManager/options-parser.cpp:32-92 | a scan registers no name and forgets none; it keeps every option's alias, help and value requirement, and leaves every flag's value unchanged |
| OptionsParser.ParseCompose | src/benchmark/optionsManager/options-parser.cpp:32-92 | when the scan of `a` completes, scanning `a + b` is scanning `b` from the state `a` left |
| OptionsParser.LastOccurrenceWins | src/benchmark/optionsManager/options-parser.cpp:51-59 | a value-taking option given again at the end ends up set, with that last value |
| OptionsParser.AllPositional | src/benchmark/optionsManager/options-parser.cpp:88-91 | arguments that do not start with `-` are appended to the positional arguments, in order |
| OptionsParser.OptionsParser.GetPositionalArgs | src/benchmark/optionsManager/options-parser.cpp:127-130 | the positional arguments as collected |
| OptionsParser.OptionsParser.IsSet | src/benchmark/optionsManager/options-parser.cpp:132-140 | the set flag of a registered option; `Unknown option: <name>` otherwise |
| OptionsParser.OptionsParser.GetValue | src/benchmark/optionsManager/options-parser.cpp:142-150 | the recorded value of a registered option; `Unknown option: <name>` otherwise |
| OptionsManager.BoolWord | src/benchmark/optionsManager/options-manager.cpp:28-35 | true exactly for `true`/`1`/`yes`, false exactly for `false`/`0`/`no` |
| OptionsManager.GetBool | src/benchmark/optionsManager/options-manager.cpp:13-38 | an unset option gives the default; a bare flag gives true; otherwise the value is read case-insensitively, and any other text is an error naming the option and the value |
| OptionsManager.BoolIgnoresCase | src/benchmark/optionsManager/options-manager.cpp:25-35 | two values that differ only in letter case read as the same boolean |
| OptionsManager.Stoi | src/benchmark/optionsManager/options-manager.cpp:48 | `std::stoi`: a value read always lies within the 32-bit `int` range |
| OptionsManager.StoiSkipsSpace | src/benchmark/optionsManager/options-manager.cpp:48 | leading white space does not change what `std::stoi` reads |
| OptionsManager.StoiRoundTrip | src/benchmark/optionsManager/options-manager.cpp:48 | an `int` written in decimal reads back as itself, whatever non-digit text follows |
| OptionsManager.GetInt | src/benchmark/optionsManager/options-manager.cpp:40-54 | an unset option gives the default; otherwise it succeeds exactly when `std::stoi` does, with the integer `std::stoi` reads, and a failure is raised again as `Invalid integer value for option ...` |
| OptionsManager.GetString | src/benchmark/optionsManager/options-manager.cpp:72-79 | an unset option gives the default; otherwise the stored value, even an empty one; an unregistered name is an error |
| OptionsManager.IsSet | src/benchmark/optionsManager/options-manager.cpp:86-89 | delegates to the parser, including its error for an unregistered name |
| OptionsManager.GetPositionalArgs | src/benchmark/optionsManager/options-manager.cpp:81-84 | the parser's positional arguments |
| BenchmarkMain.SetUpOptions | src/benchmark/main.cpp:185-195 | registers the eight options with their aliases and help texts; all but `help` take a value |
| BenchmarkMain.OptionGlobals.constructor | src/benchmark/main.cpp:33-40 | every global starts at its registered default |
| BenchmarkMain.SerializeFrom | src/benchmark/main.cpp:197-207 | each getter reads its option with the global's current value as default; no error exactly when all eight succeed, and then every global takes its getter's value (so `-t m` gives target `m`); an option not given keeps its value; a bare `-h` turns help on |
| BenchmarkMain.SerializeFirstError | src/benchmark/main.cpp:197-207 | when a getter fails, its message is the error, the globals assigned before it hold their getters' values and the rest keep their old values |
| BenchmarkMain.OptionGlobals.Serialize | src/benchmark/main.cpp:197-207 | the globals, reassigned in order, and the first error raised are those `SerializeFrom` gives for the old globals |
| BenchmarkMain.TwoDigitsShape | src/benchmark/main.cpp:216 | `%m %d %H %M %S` of a field below 100 is two digits |
| BenchmarkMain.StampShapeOfFormat | src/benchmark/main.cpp:215-216 | a four-digit year and fields below 100 give the 19-character `YYYY-MM-DD_HH-MM-SS` stamp the tools expect |
| BenchmarkMain.LogFilesBaseRoundTrip | src/benchmark/main.cpp:209-230 | the base name followed by `.` and any extension and text parses back to the stamp (with `_` turned into a space), the five numbers and the target |
| BenchmarkMain.OutputPath | src/benchmark/main.cpp:232-245 | every path starts with `outputDir + "/"` and ends with `.` and its extension |
| BenchmarkMain.OutputPathParts | src/benchmark/main.cpp:232-245 | a path's basename is `base.ext`, and its dirname is the output directory |
| BenchmarkMain.CpuMicros | src/benchmark/main.cpp:270-274 | scaled seconds plus microseconds is exactly the time between the two readings, and it is non-negative exactly when the end reading is not earlier |
| BenchmarkMain.TruncDiv | src/benchmark/main.cpp:276 | division rounding toward zero, bounded on both sides for either sign |
| BenchmarkMain.WallMicros | src/benchmark/main.cpp:276-277 | whole microseconds of the wall interval, truncated: `r*1000 <= ns < r*1000 + 1000` for a forward interval |
| BenchmarkMain.UsageBlockLines | src/benchmark/main.cpp:287-291 | the report is the header, Wall, User and System lines in that order, the footer and a blank line |
| BenchmarkMain.DumpUsage | src/benchmark/main.cpp:267-298 | when the run's `.usage` file (`outputDir/base.usage`) opens, exactly the report of the three computed times is appended to it; otherwise nothing is written and the logged message comes back |
| BenchmarkMain.MutexFor | src/benchmark/main.cpp:128-137 | target `m` selects `std::mutex`, every other target `coroMutex` |
| BenchmarkMain.Plan | src/benchmark/main.cpp:123-143 | one binding per coroutine in order; coroutine `i` is bound to shared object `i mod shared`, a valid slot, with the target's mutex kind |
| BenchmarkMain.StartCoroutines | src/benchmark/main.cpp:123-143 | the loop starts exactly the planned bindings, so coroutine `i` is bound to object `i mod shared` |
| BenchmarkMain.CounterAndUsagePathsDiffer | src/benchmark/main.cpp:232-245 | a run's counter file and usage report are different files |
| BenchmarkMain.StopAtExit | src/benchmark/main.cpp:154-163 | stopping the dumper in `main` and again at exit appends two final rows of the same counters to the counter file, and nothing if it cannot be opened |
| BenchmarkMain.PlanBalanced | src/benchmark/main.cpp:127 | round-robin binding gives object `j` `coro / shared` coroutines, plus one when `j < coro mod shared` |
| BenchmarkMain.LaunchOf | src/benchmark/main.cpp:84-137 | with help set, `main` exits before creating anything; with no shared objects and some coroutines, the modulus is undefined; otherwise the counter size, dump period, pool size and `.csv` path come from the options, and every coroutine's slot is a valid counter index |
| ArtifactNames.NumberOfNumeral | tools/gen_bench_graphic.py:10-22 | a greedy `(\d+)` read by `int()` gives back the numeral's number when a non-digit follows |
| ArtifactNames.LongestTarget | tools/gen_bench_graphic.py:10 | the backtracking target group is between 1 and the longest word run |
| ArtifactNames.MatchTarget | tools/gen_bench_graphic.py:10 | a matched target is a non-empty run of word characters |
| ArtifactNames.MatchRunFile | tools/gen_bench_graphic.py:10-11 | a match needs a stamp-shaped 19-character head and yields a non-empty word-character target |
| ArtifactNames.StampText | tools/gen_bench_graphic.py:16 | only the separator at index 10 changes, to a space |
| ArtifactNames.StampTextIsReplace | tools/gen_bench_graphic.py:16 | the stamp text equals `replace('_', ' ')` on the stamp |
| ArtifactNames.TargetRoundTrip | tools/gen_bench_graphic.py:10 | the backtracking `(\w+)` recovers exactly the target written before `_dump_` |
| ArtifactNames.RunFileRoundTrip | tools/gen_bench_graphic_comparison.py:8-23 | a run file name followed by `.ext` and any text parses back to all of its fields |
| ArtifactNames.MatchRunToken | tools/gen_summary.py:12 | a token match starts with `threads_` |
| ArtifactNames.RunTokenRoundTrip | tools/gen_summary.py:12-21 | the run token followed by a non-digit reads back as its five numbers |
| ArtifactNames.SearchRunTokenRoundTrip | tools/gen_summary.py:10-22 | `re.search` finds the token after any prefix without `threads_` |
| ArtifactNames.SearchAtMatch | tools/gen_summary.py:13 | the search stops at the first position where a match starts |
| ArtifactNames.SearchSkipsPrefix | tools/gen_summary.py:13 | the search moves past a prefix without `threads_` |
| ArtifactNames.FindSkipsText | tools/gen_bench_usage_diagram.py:29-31 | `re.search` of a label skips text that lacks the label's first character |
| ArtifactNames.FindAtLabel | tools/gen_bench_usage_diagram.py:29-31 | a label followed by a numeral reads that numeral |
| ArtifactNames.RunFileBaseChars | src/benchmark/main.cpp:219-226 | a base name with a word-character target holds no `/` and no `.` |
| ArtifactNames.TargetLabel | tools/gen_bench_graphic.py:45 | `std::mutex` exactly for target `m`, `coroMutex` for everything else |
| ArtifactNames.PairTarget | tools/gen_bench_graphic_comparison.py:31-36 | `m` pairs with `cm` and back; no pair for any other target |
| ArtifactNames.FirstEntry | tools/gen_bench_graphic_comparison.py:52-56 | the first accepted entry in listing order, with none accepted before it; none when no entry is accepted |
| ArtifactNames.FindFirstEntry | tools/gen_bench_graphic_comparison.py:52-56 | the early-return loop finds the first accepted entry |
| PyPath.Basename | tools/gen_bench_graphic.py:9 | the text after the last `/`: a suffix of the path with no `/` in it |
| PyPath.Dirname | tools/gen_bench_graphic_comparison.py:39 | a prefix of the path |
| PyPath.DirnameOrDot | tools/gen_bench_graphic_comparison.py:39 | never empty: `.` or a prefix of the path |
| PyPath.Join | tools/gen_bench_graphic_comparison.py:54 | the joined path ends with the name |
| PyPath.BasenameOfJoined | tools/gen_bench_graphic.py:9 | the basename of `dir/name` is `name` |
| PyPath.DirnameOfJoined | tools/gen_bench_graphic_comparison.py:39 | the dirname of `dir/name` is `dir` |
| PyPath.BasenameOfBareName | tools/gen_bench_graphic.py:9 | a name without `/` is its own basename |
| PyPath.DirnameOfBareName | tools/gen_bench_graphic_comparison.py:39 | a bare name has an empty dirname, so the tools fall back to `.` |
| PyPath.JoinRelative | tools/gen_bench_graphic_comparison.py:54 | joining puts exactly one `/` between a directory and a relative name |
| GenBenchGraphic.ParseFilename | tools/gen_bench_graphic.py:8-24 | a parse yields a 19-character stamp text with a space at index 10 and a non-empty word-character target |
| GenBenchGraphic.ParseIgnoresDirectory | tools/gen_bench_graphic.py:9-11 | the directory part never affects the parse |
| GenBenchGraphic.ParseRunFile | tools/gen_bench_graphic.py:8-24 | a counter file the benchmark names, in any directory, parses back to its fields |
| GenBenchGraphic.PlotColumns | tools/gen_bench_graphic.py:34-36 | the counters are the integer fields except the last, which is the total |
| GenBenchGraphic.OutputNameEnds | tools/gen_bench_graphic.py:65 | a name ending `.csv` gives an image name ending `.png` |
| GenBenchGraphic.OutputNameOfRunFile | tools/gen_bench_graphic.py:65 | when the only `.csv` is the extension, the stem is kept |
| GenBenchGraphic.PlotBenchmarkResults | tools/gen_bench_graphic.py:26-66 | stops exactly when the name does not parse; otherwise the title names the target's mutex, every row is plotted by its columns, and the image name is derived from the input |
| GenBenchGraphicComparison.ParseFilename | tools/gen_bench_graphic_comparison.py:8-23 | a parse needs the whole argument to start with a stamp, and yields a word-character target |
| GenBenchGraphicComparison.DirectoryPathNotParsed | tools/gen_bench_graphic_comparison.py:9-12 | a path whose directory does not start with a digit never parses |
| GenBenchGraphicComparison.ParseRunFile | tools/gen_bench_graphic_comparison.py:8-23 | a bare counter-file name parses back to its fields, whatever follows `.csv` |
| GenBenchGraphicComparison.PairFile | tools/gen_bench_graphic_comparison.py:25-56 | no pair when the name does not parse or the target is not `m`/`cm` |
| GenBenchGraphicComparison.FindPairFile | tools/gen_bench_graphic_comparison.py:25-56 | the early-return loop gives the pair the function describes |
| GenBenchGraphicComparison.PairFileIsFirstMatch | tools/gen_bench_graphic_comparison.py:38-56 | a found pair is the first entry matching the case-insensitive pattern of the input's numbers and the other target, joined to the input's directory |
| GenBenchGraphicComparison.PairFileMissing | tools/gen_bench_graphic_comparison.py:52-56 | for a parsed name with a pairable target, no pair means no entry matches |
| GenBenchGraphicComparison.RunFileMatchesPattern | tools/gen_bench_graphic_comparison.py:40-49 | the benchmark's file of the same numbers and the other target matches, whatever its timestamp |
| GenBenchGraphicComparison.PairOfBenchmarkRun | tools/gen_bench_graphic_comparison.py:25-56 | a listing holding the other variant's file of the same run always yields a pair |
| GenBenchGraphicComparison.PlotBenchmarkResults | tools/gen_bench_graphic_comparison.py:58-72 | stops when the name does not parse, then when there is no pair (with that message); otherwise draws the input and its pair |
| GenBenchUsageDiagram.ParseFilename | tools/gen_bench_usage_diagram.py:7-23 | a parse yields a 19-character stamp text with a space at index 10 and a non-empty word-character target |
| GenBenchUsageDiagram.ParseIgnoresDirectory | tools/gen_bench_usage_diagram.py:8-10 | the directory part never affects the parse |
| GenBenchUsageDiagram.ParseRunFile | tools/gen_bench_usage_diagram.py:7-23 | a report the benchmark names, in any directory, parses back to its fields |
| GenBenchUsageDiagram.ParseUsageFile | tools/gen_bench_usage_diagram.py:25-40 | succeeds exactly when all three labels occur followed by digits; each figure is the number after its label's first such occurrence |
| GenBenchUsageDiagram.OutputNameEnds | tools/gen_bench_usage_diagram.py:83 | a name ending `.usage` gives an image name ending `_usage.png` |
| GenBenchUsageDiagram.OutputNameOfRunFile | tools/gen_bench_usage_diagram.py:83 | when the only `.usage` is the extension, the stem is kept |
| GenBenchUsageDiagram.PlotUsageResults | tools/gen_bench_usage_diagram.py:42-83 | stops exactly when the name, then the figures, fail to parse; otherwise it draws the parsed figures under the target's title |
| GenBenchUsageDiagramComparison.ParseFilename | tools/gen_bench_usage_diagram_comparison.py:7-22 | a parse needs the whole argument to start with a stamp, and yields a word-character target |
| GenBenchUsageDiagramComparison.DirectoryPathNotParsed | tools/gen_bench_usage_diagram_comparison.py:8-11 | a path whose directory does not start with a digit never parses |
| GenBenchUsageDiagramComparison.ParseRunFile | tools/gen_bench_usage_diagram_comparison.py:7-22 | a bare report name parses back to its fields, whatever follows `.usage` |
| GenBenchUsageDiagramComparison.PairFile | tools/gen_bench_usage_diagram_comparison.py:24-54 | no pair when the name does not parse or the target is not `m`/`cm` |
| GenBenchUsageDiagramComparison.FindPairFile | tools/gen_bench_usage_diagram_comparison.py:43-54 | the loop with `continue` and early return gives the pair the function describes |
| GenBenchUsageDiagramComparison.PairFileIsFirstMatch | tools/gen_bench_usage_diagram_comparison.py:43-54 | a found pair is the first `.usage` entry that parses with equal numbers and the other target, and the pair's own pair target is the input's target |
| GenBenchUsageDiagramComparison.PairFileMissing | tools/gen_bench_usage_diagram_comparison.py:43-54 | for a parsed name with a pairable target, no pair means no entry passes the test |
| GenBenchUsageDiagramComparison.PairOfBenchmarkRun | tools/gen_bench_usage_diagram_comparison.py:24-54 | a listing holding the other variant's report of the same run always yields a pair |
| GenBenchUsageDiagramComparison.ParseUsageFile | tools/gen_bench_usage_diagram_comparison.py:56-70 | succeeds exactly when both the User and System labels occur followed by digits (Wall is not needed); the total is their sum |
| GenBenchUsageDiagramComparison.PlotUsageComparison | tools/gen_bench_usage_diagram_comparison.py:72-95 | stops with the matching message when the name, the pair or either report fails (each of the three stops is stated); otherwise it plots both reports, titled by the input's target |
| GenSummary.Grid | tools/gen_summary.py:28 | one row of counter columns per CSV row |
| GenSummary.ColumnsThenRows | tools/gen_summary.py:33 | summing column by column equals summing row by row |
| GenSummary.ColumnMeansOfSums | tools/gen_summary.py:33 | the column means add up to the column sums over the row count |
| GenSummary.MeanOfColumns | tools/gen_summary.py:33 | the column means add up to the grid's sum over the row count |
| GenSummary.PooledMean | tools/gen_summary.py:33 | the mean of the column means is the mean of all counter cells |
| GenSummary.MaxOf | tools/gen_summary.py:36 | the row maximum: in the row and at least every cell |
| GenSummary.MinOf | tools/gen_summary.py:36 | the row minimum: in the row and at most every cell |
| GenSummary.Spread | tools/gen_summary.py:36 | max − min is non-negative, and zero exactly when all counters of the row are equal |
| GenSummary.SpreadSum | tools/gen_summary.py:36 | the summed spreads are non-negative, and zero with a single counter column |
| GenSummary.CounterStats | tools/gen_summary.py:33-36 | the mean is the mean of all cells; `max_diff` is the row spreads added up over the number of rows, non-negative, and 0 for one counter |
| GenSummary.ProcessCsv | tools/gen_summary.py:24-41 | a result exactly for a non-empty rectangular file; `total_sum` is the last field of the last row; the mean is over all counter cells; `max_diff` is the mean over rows of (row max − row min), ≥ 0 and 0 for one counter; with no counter columns, mean and `max_diff` are absent (pandas' NaN); `cv` is NaN exactly when every counter cell is zero, and the means are then 0 |
| GenSummary.Variant | tools/gen_summary.py:62 | `cm` exactly when the name contains `target_cm`; otherwise `m` exactly when it contains `target_m`; otherwise none |
| GenSummary.FileRecord | tools/gen_summary.py:59-71 | a record exactly for a `.csv` with a variant and computable statistics, carrying the directory's parameters |
| GenSummary.FileRecords | tools/gen_summary.py:59-71 | every record of a `res` directory has the directory's parameters and variant `cm` or `m` |
| GenSummary.DirRecords | tools/gen_summary.py:46-57 | nothing unless the entry is a directory whose name holds a token and that has `res`; every record carries that token's parameters |
| GenSummary.ResRecords | tools/gen_summary.py:59-71 | the inner loop collects exactly the file records, in listing order |
| GenSummary.ProcessRunsDirectory | tools/gen_summary.py:43-73 | the nested loops collect exactly the records of every entry, in listing order |
| GenSummary.RecordOrigin | tools/gen_summary.py:46-71 | every record comes from a run directory with `res` whose name holds exactly its parameters |
| GenSummary.Group | tools/gen_summary.py:81-87 | a group is empty exactly when no record has that key and variant |
| GenSummary.GroupEnumerates | tools/gen_summary.py:81-87 | a group lists the statistics of exactly the records with that key and variant, in table order |
| GenSummary.GroupMetrics | tools/gen_summary.py:81-87 | a variant's metrics exist exactly when some record has that key and variant |
| GenSummary.GroupTotalOfCopies | tools/gen_summary.py:81-87 | the averaged `total_sum` of records that all carry the same statistics is their own `total_sum`, so a one-record group keeps its value |
| GenSummary.GroupMeansOfCopies | tools/gen_summary.py:81-87 | likewise for the NaN-skipping means of `mean` and `max_diff`, NaN included |
| GenSummary.GroupMetricsOfTwo | tools/gen_summary.py:81-87 | two repetitions with different statistics average to their arithmetic means; a NaN `mean` or `max_diff` of one is skipped, two NaN give NaN |
| GenSummary.Divide | tools/gen_summary.py:102 | IEEE quotient: finite exactly for a nonzero divisor (and then exact); ±infinity or NaN otherwise |
| GenSummary.Compare | tools/gen_summary.py:101-104 | when both variants exist, `sum_diff` is cm − m and `sum_ratio` is the IEEE quotient cm / m (±infinity or NaN for a zero `m` total); both NaN when either is missing |
| GenSummary.SortedKeys | tools/gen_summary.py:90-95 | the distinct parameter tuples of the table, strictly sorted |
| GenSummary.SummaryRowOf | tools/gen_summary.py:90-104 | a pivot row holds each variant's group metrics, and the comparison exactly when both variants occur in the table |
| GenSummary.PivotRows | tools/gen_summary.py:80-106 | one row per distinct tuple, in sorted order, with each variant's metrics; comparison columns exactly when both variants occur |
| GenSummary.CvColumnDropped | tools/gen_summary.py:81-95 | a variant's pivoted `cv` column is NaN throughout exactly when every record of that variant has NaN `cv` |
| GenSummary.CreateSummaryTable | tools/gen_summary.py:75-106 | raises a `KeyError` naming `cv_cm` or else `cv_m` exactly when both variants occur and one of them has no defined `cv`; otherwise the pivot rows |
| GenSummary.SummaryRowsSorted | tools/gen_summary.py:77-106 | empty exactly for an empty table; rows ascend by threads, shared objects, coroutines and then the rest of the tuple |
| GenSummary.SummaryCoversRecords | tools/gen_summary.py:90-95 | every parameter tuple of the raw table has a summary row |
| GenSummary.SummaryRowsFromRecords | tools/gen_summary.py:90-95 | every summary row comes from a record of the raw table |
| GenSummary.SummaryMain | tools/gen_summary.py:149-166 | no data exactly when the raw table is empty, and then nothing is written; aborts with the summary's error, writing nothing, exactly when that raises; otherwise the two timestamped tables |
| ArtifactRoundTrips.ReportWall | src/benchmark/main.cpp:287-291 | the Wall search on a report, with anything after it, reads the wall time written |
| ArtifactRoundTrips.ReportUser | src/benchmark/main.cpp:287-291 | the User search reads the user time written |
| ArtifactRoundTrips.ReportSystem | src/benchmark/main.cpp:287-291 | the System search reads the system time written |
| ArtifactRoundTrips.UsageReportReadBack | tools/gen_bench_usage_diagram.py:25-40 | `parse_usage_file` reads back the three times `dumpUsage` wrote, whatever follows (the first of appended reports wins) |
| ArtifactRoundTrips.UsageTotalsReadBack | tools/gen_bench_usage_diagram_comparison.py:56-70 | the comparison's `parse_usage_file` reads back user, system and their sum |
| ArtifactRoundTrips.ParseIntegers | tools/gen_summary.py:27 | succeeds exactly when every field is an integer, giving each field's value in order |
| ArtifactRoundTrips.ReadCsvLine | tools/gen_summary.py:27 | a line reads as its time text and its integer fields; it fails only when some later field is not an integer |
| ArtifactRoundTrips.ParseNumerals | src/benchmark/counter/counter-dumper.cpp:74-79 | the numerals the dumper writes read back as the counters |
| ArtifactRoundTrips.DumpRowReadBack | src/benchmark/counter/counter-dumper.cpp:70-82 | a dumped row ends in a line feed and reads back as its time, its counters and their total |
| ArtifactRoundTrips.DumpedRows | src/benchmark/counter/counter-dumper.cpp:50-88 | the file of successive dumps reads as one row per dump: that dump's time field, its counters and their total |
| ArtifactRoundTrips.DumpedFileStats | tools/gen_summary.py:24-41 | on a dumped file, `total_sum` is the sum of the last dump's counters, the mean is the mean of all dumped counters, and `max_diff` is the mean of the dumps' spreads, ≥ 0; `cv` is NaN exactly when every dump shows only zero counters |
| ArtifactRoundTrips.PlotColumnsOfDump | tools/gen_bench_graphic.py:34-36 | the plot's counter columns are the dumped counters, and its total column is their sum |
| ArtifactRoundTrips.CounterFileNamesItsRun | src/benchmark/main.cpp:209-235 | `gen_bench_graphic.py` reads the run's stamp, numbers and target from the counter file's path |
| ArtifactRoundTrips.UsageFileNamesItsRun | src/benchmark/main.cpp:242-245 | `gen_bench_usage_diagram.py` reads the same fields from the usage report's path |
| ArtifactRoundTrips.TitleNamesMutex | tools/gen_bench_graphic.py:45 | the title a tool gives a target names the mutex the benchmark ran with it |
| ArtifactRoundTrips.VariantOfCm | tools/gen_summary.py:62 | a counter file of target `cm` is classified `cm` |
| ArtifactRoundTrips.VariantOfM | tools/gen_summary.py:62 | a counter file of target `m` is classified `m`, not `cm` |
| Text.NatToStringRoundTrip | tools/gen_bench_graphic.py:17 | `int()` of a written numeral gives the number back |
| Text.SplitJoin | tools/gen_summary.py:27 | splitting joined fields that hold no separator gives the fields back |
| Text.Lower | src/benchmark/optionsManager/options-manager.cpp:25-26 | per-character `tolower` in the C locale, same length |
| Text.ReplaceAllAtEnd | tools/gen_bench_graphic.py:65 | the pattern at the very end is always replaced |
| Text.ReplaceAllWithout | tools/gen_bench_graphic.py:65 | text without the pattern is unchanged by `replace` |

## Left out

- The coroutine mutex, the thread pool, the task manager, the lock-free and thread-safe queues, and the coroutine bodies. They are concurrency (CAS loops, memory ordering, work stealing, coroutine resumption). So are the counter dumper's worker thread and its mutex.
- Signal handling, sleeping and the spdlog logger. Logged messages come back as `Option<string>` results where the source logs and carries on.
- The clocks and `getrusage`. Their readings are parameters (`LocalTime`, nanosecond counts, `Usage` snapshots).
- File system access (`os.listdir`, `isdir`, `exists`, `read_csv`, `open`, `to_csv`). Listings, file texts and CSV rows are inputs, and `Files.FileStore` stands for append-mode `ofstream`s.
- All plotting: the drawings, `create_combined_plots`, and axes and time parsing. Only what the plots are built from is modelled.
- `std_dev` and the value of `cv` (`gen_summary.py` lines 34-35), with the `cv_diff` column, and `optionsManager::getDouble`. They need square roots and floating point. Whether `cv` is NaN is modelled, because that decides whether `create_summary_table` raises.
- GenSummary.PivotRows: a variant's `mean` or `max_diff` column that is NaN in every row is dropped by `pivot_table`; the model keeps it as `None` cells. Only the dropped `cv` column changes control flow.
- `optionsManager::getUInt64` and the other sized getters. Their bodies are not available, so `BenchmarkMain.SerializeFrom` takes the conversion as a function parameter. `register-option.h` is not part of this model.
- `optionsParser::printHelp`: it only writes text to standard output. `--help` is modelled as ending the scan (`HelpRequested`).
- Floating-point rounding. Means and ratios use exact rationals (`real`).
- Counter.AtomicMultipleCounter.Increment: the counters are unbounded integers, so the 64-bit wrap-around of `int64_t` is not modelled. The same holds for Decrement, GetTotal and the microsecond arithmetic of `dumpUsage`.
- Python's Unicode `\d`, `\w` and IGNORECASE are modelled for ASCII only. A non-ASCII digit or letter is treated as a non-match.
- GenSummary.ProcessCsv: it gives `None` for ragged rows and for a file with only the time column. pandas raises on a row longer than the first (so `None` is right there), but it pads a shorter row with NaN. For a time-only file it returns the time text as `total_sum`.
- ArtifactRoundTrips.ReadCsvLine: it reads one line at a time. pandas' splitting of a file into lines and its type inference over whole columns are not modelled.
- ArtifactRoundTrips.DumpRowReadBack: it requires at least one counter. With none, the row has an empty middle field, which pandas reads as NaN.
- BenchmarkMain.Plan: it requires shared objects or no coroutines. `i % 0` is undefined behaviour in C++, and `BenchmarkMain.LaunchOf` reports that case as `UndefinedModulo`.
- `gen_summary.py` line 175 is indented with spaces inside a tab-indented block, which Python 3 rejects as inconsistent indentation before `main` runs. The model describes `main` as its author evidently meant it.
