/**
 * `tools/gen_summary.py`: collects the counter files of every run directory,
 * computes per-file statistics and averages them into one summary row per
 * parameter tuple, `coroMutex` and `std::mutex` side by side. Directory
 * listings and file contents are inputs; a parsed CSV file is its rows, the
 * first (time) field as text and the others as integers. Averages are exact
 * rationals; pandas' floating-point rounding is not modelled, its NaN is
 * `None`.
 */
module GenSummary {
  import opened Wrappers
  import opened Text
  import opened ArtifactNames
  import Counter

  // ---------------------------------------------------------------------
  // process_csv

  /** One line of a counter file: the time field and the integer fields after it. */
  datatype CsvRow = CsvRow(time: string, fields: seq<int>)

  /**
   * The statistics of one file: `total_sum`, `mean` and `max_diff`
   * (`None` where pandas computes NaN, namely for a file without counter
   * columns), and whether `cv` is NaN. The value of `cv` is not modelled.
   */
  datatype Stats = Stats(totalSum: int, mean: Option<real>, maxDiff: Option<real>, cvUndefined: bool)

  function Last<T>(s: seq<T>): T
    requires |s| > 0
  {
    s[|s| - 1]
  }

  /** Every row has `width` integer fields. */
  predicate Rectangular(rows: seq<CsvRow>, width: nat)
  {
    forall r :: 0 <= r < |rows| ==> |rows[r].fields| == width
  }

  /** `df.iloc[:, 1:-1]` of one row: the fields between the time and the total. */
  function CounterColumns(row: CsvRow): seq<int>
    requires |row.fields| >= 1
  {
    row.fields[..|row.fields| - 1]
  }

  /** The counter columns of every row. */
  function Grid(rows: seq<CsvRow>): (g: seq<seq<int>>)
    requires forall r :: 0 <= r < |rows| ==> |rows[r].fields| >= 1
    ensures |g| == |rows|
    ensures forall r :: 0 <= r < |rows| ==> g[r] == CounterColumns(rows[r])
  {
    seq(|rows|, r requires 0 <= r < |rows| => CounterColumns(rows[r]))
  }

  /** Every row of `g` has exactly `n` cells. */
  predicate Width(g: seq<seq<int>>, n: nat)
  {
    forall r :: 0 <= r < |g| ==> |g[r]| == n
  }

  /** The sum of column `c`. */
  function ColumnSum(g: seq<seq<int>>, c: nat): int
    requires forall r :: 0 <= r < |g| ==> c < |g[r]|
    decreases |g|
  {
    if g == [] then 0 else ColumnSum(g[..|g| - 1], c) + Last(g)[c]
  }

  /** The column sums of the first `n` columns, added up. */
  function SumOfColumns(g: seq<seq<int>>, n: nat): int
    requires forall r :: 0 <= r < |g| ==> n <= |g[r]|
  {
    if n == 0 then 0 else SumOfColumns(g, n - 1) + ColumnSum(g, n - 1)
  }

  /** Every cell of `g`, added up row by row. */
  function GridSum(g: seq<seq<int>>): int
    decreases |g|
  {
    if g == [] then 0 else GridSum(g[..|g| - 1]) + Counter.Sum(Last(g))
  }

  /** `counters.mean()` added up over the first `n` columns. */
  function ColumnMeans(g: seq<seq<int>>, n: nat): real
    requires |g| > 0
    requires forall r :: 0 <= r < |g| ==> n <= |g[r]|
  {
    if n == 0 then 0.0 else ColumnMeans(g, n - 1) + ColumnSum(g, n - 1) as real / |g| as real
  }

  lemma {:induction false} ColumnSumAppend(g: seq<seq<int>>, row: seq<int>, c: nat)
    requires forall r :: 0 <= r < |g| ==> c < |g[r]|
    requires c < |row|
    ensures ColumnSum(g + [row], c) == ColumnSum(g, c) + row[c]
  {
    assert (g + [row])[..|g|] == g;
  }

  lemma {:induction false} SumOfColumnsAppend(g: seq<seq<int>>, row: seq<int>, n: nat)
    requires forall r :: 0 <= r < |g| ==> n <= |g[r]|
    requires n <= |row|
    ensures SumOfColumns(g + [row], n) == SumOfColumns(g, n) + Counter.Sum(row[..n])
  {
    if n > 0 {
      SumOfColumnsAppend(g, row, n - 1);
      ColumnSumAppend(g, row, n - 1);
      assert row[..n][..n - 1] == row[..n - 1];
    }
  }

  /** Adding up column by column gives the same as adding up row by row. */
  lemma {:induction false} ColumnsThenRows(g: seq<seq<int>>, n: nat)
    requires Width(g, n)
    ensures SumOfColumns(g, n) == GridSum(g)
    decreases |g|
  {
    if g == [] {
      ZeroColumns(g, n);
    } else {
      var h := g[..|g| - 1];
      ColumnsThenRows(h, n);
      assert g == h + [Last(g)];
      SumOfColumnsAppend(h, Last(g), n);
      assert Last(g)[..n] == Last(g);
    }
  }

  lemma {:induction false} ZeroColumns(g: seq<seq<int>>, n: nat)
    requires g == []
    ensures SumOfColumns(g, n) == 0
  {
    if n > 0 { ZeroColumns(g, n - 1); }
  }

  lemma {:induction false} ColumnMeansOfSums(g: seq<seq<int>>, n: nat)
    requires |g| > 0
    requires forall r :: 0 <= r < |g| ==> n <= |g[r]|
    ensures ColumnMeans(g, n) == SumOfColumns(g, n) as real / |g| as real
  {
    if n > 0 {
      ColumnMeansOfSums(g, n - 1);
      var a, b, k := SumOfColumns(g, n - 1) as real, ColumnSum(g, n - 1) as real, |g| as real;
      assert a / k + b / k == (a + b) / k;
    }
  }

  /** The number of cells of a grid of `rows` rows and `columns` columns. */
  function Cells(rows: nat, columns: nat): (c: nat)
    ensures rows > 0 && columns > 0 ==> c >= columns > 0
  {
    rows * columns
  }

  /**
   * `counters.mean().mean()`, the mean of the column means, equals the mean
   * of all counter cells, because every column has the same number of rows.
   */
  lemma PooledMean(g: seq<seq<int>>, n: nat)
    requires |g| > 0 && n > 0 && Width(g, n)
    ensures ColumnMeans(g, n) / n as real == GridSum(g) as real / Cells(|g|, n) as real
  {
    MeanOfColumns(g, n);
    MeanOfMean(ColumnMeans(g, n), GridSum(g), |g|, n);
  }

  /** Each column mean is its sum over the row count, so their sum is the grid's sum over it. */
  lemma MeanOfColumns(g: seq<seq<int>>, n: nat)
    requires |g| > 0 && Width(g, n)
    ensures ColumnMeans(g, n) == GridSum(g) as real / |g| as real
  {
    ColumnMeansOfSums(g, n);
    ColumnsThenRows(g, n);
  }

  /** The mean over the rows, averaged over the columns, is the mean over the cells. */
  lemma MeanOfMean(perColumn: real, total: int, rows: nat, columns: nat)
    requires rows > 0 && columns > 0
    requires perColumn == total as real / rows as real
    ensures perColumn / columns as real == total as real / Cells(rows, columns) as real
  {
    RealOfProduct(rows, columns);
    DivideTwice(total as real, rows as real, columns as real);
  }

  lemma {:induction false} RealOfProduct(a: nat, b: nat)
    ensures (a * b) as real == a as real * b as real
  {
    if b > 0 {
      RealOfProduct(a, b - 1);
      assert a * b == a * (b - 1) + a;
    }
  }

  lemma DivideTwice(x: real, k: real, m: real)
    requires k > 0.0 && m > 0.0
    ensures (x / k) / m == x / (k * m)
  {
    var a := x / k;
    var b := a / m;
    assert a * k == x;
    assert b * m == a;
    assert b * (k * m) == (b * m) * k;
  }

  function MaxOf(s: seq<int>): (m: int)
    requires |s| > 0
    ensures forall i :: 0 <= i < |s| ==> s[i] <= m
    ensures m in s
  {
    if |s| == 1 then s[0]
    else
      var m := MaxOf(s[..|s| - 1]);
      assert s[..|s| - 1] <= s;
      if Last(s) > m then Last(s) else m
  }

  function MinOf(s: seq<int>): (m: int)
    requires |s| > 0
    ensures forall i :: 0 <= i < |s| ==> m <= s[i]
    ensures m in s
  {
    if |s| == 1 then s[0]
    else
      var m := MinOf(s[..|s| - 1]);
      assert s[..|s| - 1] <= s;
      if Last(s) < m then Last(s) else m
  }

  /** `row.max() - row.min()`: zero exactly when all counters of the row are equal. */
  function Spread(s: seq<int>): (d: int)
    requires |s| > 0
    ensures d >= 0
    ensures d == 0 <==> forall i, j :: 0 <= i < |s| && 0 <= j < |s| ==> s[i] == s[j]
  {
    MaxOf(s) - MinOf(s)
  }

  /** The spreads of all rows, added up. */
  function SpreadSum(g: seq<seq<int>>): (t: int)
    requires forall r :: 0 <= r < |g| ==> |g[r]| > 0
    ensures t >= 0
    ensures Width(g, 1) ==> t == 0
    decreases |g|
  {
    if g == [] then 0
    else
      var t := SpreadSum(g[..|g| - 1]);
      assert |Last(g)| == 1 ==> Spread(Last(g)) == 0;
      t + Spread(Last(g))
  }

  /**
   * Every counter cell is zero, vacuously so when there is none: `variation`
   * then divides a zero standard deviation by a zero mean, or has no cell
   * at all, and gives NaN. Any other cells give a number or an infinity.
   */
  predicate ZeroCells(g: seq<seq<int>>)
  {
    forall r, c :: 0 <= r < |g| && 0 <= c < |g[r]| ==> g[r][c] == 0
  }

  /** A grid of zeros adds up to zero and spreads by zero. */
  lemma {:induction false} ZeroGrid(g: seq<seq<int>>)
    requires forall r :: 0 <= r < |g| ==> |g[r]| > 0
    requires ZeroCells(g)
    ensures GridSum(g) == 0 && SpreadSum(g) == 0
    decreases |g|
  {
    if g != [] {
      var h := g[..|g| - 1];
      assert forall r :: 0 <= r < |h| ==> h[r] == g[r];
      ZeroGrid(h);
      var row := Last(g);
      assert forall c :: 0 <= c < |row| ==> row[c] == 0;
      Counter.SumZeros(|row|);
      assert row == seq(|row|, _ => 0);
      assert MaxOf(row) == 0 && MinOf(row) == 0;
    }
  }

  /** The cells of the grid of `rows` are the fields between each row's time and total. */
  lemma GridCells(rows: seq<CsvRow>)
    requires forall r :: 0 <= r < |rows| ==> |rows[r].fields| >= 1
    ensures ZeroCells(Grid(rows)) <==>
      forall i, j :: 0 <= i < |rows| && 0 <= j < |rows[i].fields| - 1 ==> rows[i].fields[j] == 0
  {
    var g := Grid(rows);
    assert forall i, j :: 0 <= i < |rows| && 0 <= j < |rows[i].fields| - 1 ==> g[i][j] == rows[i].fields[j];
  }

  /** The two means of a file with `n` counter columns. */
  function CounterStats(g: seq<seq<int>>, n: nat): (r: (real, real))
    requires |g| > 0 && n > 0 && Width(g, n)
    ensures r.0 == GridSum(g) as real / Cells(|g|, n) as real
    ensures r.1 == SpreadSum(g) as real / |g| as real
    ensures r.1 >= 0.0 && (n == 1 ==> r.1 == 0.0)
    ensures ZeroCells(g) ==> r.0 == 0.0 && r.1 == 0.0
  {
    PooledMean(g, n);
    assert ZeroCells(g) ==> GridSum(g) == 0 && SpreadSum(g) == 0 by {
      if ZeroCells(g) { ZeroGrid(g); }
    }
    (ColumnMeans(g, n) / n as real, SpreadSum(g) as real / |g| as real)
  }

  /**
   * `process_csv`: `total_sum` is the last field of the last row; `mean` the
   * mean of the column means of the counter columns; `max_diff` the mean of
   * the row spreads. A file that cannot be read gives `None`: no rows, or
   * rows of different widths.
   */
  function ProcessCsv(rows: seq<CsvRow>): (r: Option<Stats>)
    ensures r.Some? <==> rows != [] && |rows[0].fields| >= 1 && Rectangular(rows, |rows[0].fields|)
    ensures r.Some? ==> r.value.totalSum == Last(Last(rows).fields)
    // Without counter columns pandas' means are NaN.
    ensures r.Some? && |rows[0].fields| == 1 ==> r.value.mean.None? && r.value.maxDiff.None?
    // The mean of the column means is the mean of all counter cells.
    ensures r.Some? && |rows[0].fields| >= 2 ==>
      r.value.mean == Some(GridSum(Grid(rows)) as real / Cells(|rows|, |rows[0].fields| - 1) as real)
    // `max_diff` is the row spreads added up over the number of rows; it is
    // never negative, and a single counter column never spreads.
    ensures r.Some? && |rows[0].fields| >= 2 ==>
      r.value.maxDiff == Some(SpreadSum(Grid(rows)) as real / |rows| as real)
    ensures r.Some? && |rows[0].fields| >= 2 ==>
      r.value.maxDiff.Some? && r.value.maxDiff.value >= 0.0
      && (|rows[0].fields| == 2 ==> r.value.maxDiff.value == 0.0)
    // `cv` is NaN exactly when no counter cell is nonzero; the means are then 0.
    ensures r.Some? ==>
      (r.value.cvUndefined <==>
        forall i, j :: 0 <= i < |rows| && 0 <= j < |rows[i].fields| - 1 ==> rows[i].fields[j] == 0)
    ensures r.Some? && |rows[0].fields| >= 2 && r.value.cvUndefined ==>
      r.value.mean == Some(0.0) && r.value.maxDiff == Some(0.0)
  {
    if rows == [] || |rows[0].fields| < 1 || !Rectangular(rows, |rows[0].fields|) then None
    else
      var n := |rows[0].fields| - 1;
      var total := Last(Last(rows).fields);
      var g := Grid(rows);
      var flat := ZeroCells(g);
      GridCells(rows);
      if n == 0 then Some(Stats(total, None, None, flat))
      else
        assert Width(g, n);
        var stats := CounterStats(g, n);
        Some(Stats(total, Some(stats.0), Some(stats.1), flat))
  }

  // ---------------------------------------------------------------------
  // process_runs_directory

  /** An entry of a `res` directory: its name and, when pandas can read it, its rows. */
  datatype ResFile = ResFile(name: string, rows: Option<seq<CsvRow>>)

  /**
   * An entry of the runs directory: its name, whether it is a directory, and
   * the listing of its `res` child when that exists.
   */
  datatype Entry = Entry(name: string, isDir: bool, res: Option<seq<ResFile>>)

  /** One row of the raw table: the directory's parameters, the file's statistics and its variant. */
  datatype Record = Record(params: RunParams, stats: Stats, target: string)

  /** The variant named in a file name: `cm` wins over `m`; neither gives `None`. */
  function Variant(name: string): (r: Option<string>)
    ensures r == Some("cm") <==> Contains(name, "target_cm")
    ensures r == Some("m") <==> !Contains(name, "target_cm") && Contains(name, "target_m")
    ensures r.None? <==> !Contains(name, "target_cm") && !Contains(name, "target_m")
  {
    if Contains(name, "target_cm") then Some("cm")
    else if Contains(name, "target_m") then Some("m")
    else None
  }

  /**
   * The record a file of a run directory contributes: only a `.csv` file
   * whose name names a variant and whose statistics can be computed.
   */
  function FileRecord(params: RunParams, f: ResFile): (r: Option<Record>)
    ensures r.Some? <==>
      EndsWith(f.name, ".csv") && Variant(f.name).Some? && f.rows.Some? && ProcessCsv(f.rows.value).Some?
    ensures r.Some? ==>
      r.value == Record(params, ProcessCsv(f.rows.value).value, Variant(f.name).value)
  {
    if !EndsWith(f.name, ".csv") then None
    else
      match Variant(f.name)
      case None => None
      case Some(target) =>
        match f.rows
        case None => None
        case Some(rows) =>
          match ProcessCsv(rows)
          case None => None
          case Some(stats) => Some(Record(params, stats, target))
  }

  function Records(r: Option<Record>): seq<Record>
  {
    if r.Some? then [r.value] else []
  }

  /** The records of the files of one `res` directory, in listing order. */
  function FileRecords(params: RunParams, files: seq<ResFile>): (r: seq<Record>)
    ensures |r| <= |files|
    ensures forall k :: 0 <= k < |r| ==> r[k].params == params && (r[k].target == "cm" || r[k].target == "m")
    decreases |files|
  {
    if files == [] then []
    else FileRecords(params, files[..|files| - 1]) + Records(FileRecord(params, Last(files)))
  }

  /**
   * The records of one entry of the runs directory: none unless it is a
   * directory whose name holds a parameter token and that has a `res` child.
   */
  function DirRecords(d: Entry): (r: seq<Record>)
    ensures !d.isDir || SearchRunToken(d.name).None? || d.res.None? ==> r == []
    ensures forall k :: 0 <= k < |r| ==> Some(r[k].params) == SearchRunToken(d.name)
  {
    if d.isDir && SearchRunToken(d.name).Some? && d.res.Some? then
      FileRecords(SearchRunToken(d.name).value, d.res.value)
    else []
  }

  /** The raw table: the records of every entry, in listing order. */
  function Collect(entries: seq<Entry>): seq<Record>
    decreases |entries|
  {
    if entries == [] then [] else Collect(entries[..|entries| - 1]) + DirRecords(Last(entries))
  }

  /** The inner loop of `process_runs_directory`: the files of one `res` directory. */
  method ResRecords(params: RunParams, files: seq<ResFile>) returns (records: seq<Record>)
    ensures records == FileRecords(params, files)
  {
    records := [];
    for j := 0 to |files|
      invariant records == FileRecords(params, files[..j])
    {
      assert files[..j + 1][..j] == files[..j];
      var file := files[j];
      if EndsWith(file.name, ".csv") {
        var target := Variant(file.name);
        if target.None? {
          continue;
        }
        if file.rows.None? {
          continue;
        }
        var stats := ProcessCsv(file.rows.value);
        if stats.Some? {
          records := records + [Record(params, stats.value, target.value)];
        }
      }
    }
    assert files[..|files|] == files;
  }

  /**
   * `process_runs_directory`: walks the runs directory and each `res` child,
   * skipping whatever does not qualify.
   */
  method ProcessRunsDirectory(entries: seq<Entry>) returns (results: seq<Record>)
    ensures results == Collect(entries)
  {
    results := [];
    for i := 0 to |entries|
      invariant results == Collect(entries[..i])
    {
      assert entries[..i + 1][..i] == entries[..i];
      var entry := entries[i];
      if !entry.isDir {
        continue;
      }
      var params := SearchRunToken(entry.name);
      if params.None? {
        continue;
      }
      if entry.res.None? {
        continue;
      }
      var records := ResRecords(params.value, entry.res.value);
      results := results + records;
    }
    assert entries[..|entries|] == entries;
  }

  lemma ConcatIndex<T>(a: seq<T>, b: seq<T>, k: nat)
    requires |a| <= k < |a| + |b|
    ensures (a + b)[k] == b[k - |a|]
  {
  }

  /**
   * Every record comes from a run directory with a `res` child whose name
   * holds exactly the record's parameters.
   */
  lemma {:induction false} RecordOrigin(entries: seq<Entry>, k: nat) returns (i: nat)
    requires k < |Collect(entries)|
    ensures i < |entries| && entries[i].isDir && entries[i].res.Some?
    ensures SearchRunToken(entries[i].name) == Some(Collect(entries)[k].params)
    decreases |entries|
  {
    assert entries != [];
    var n := |entries| - 1;
    var front, last := Collect(entries[..n]), DirRecords(entries[n]);
    var all := Collect(entries);
    assert all == front + last;
    if k < |front| {
      i := RecordOrigin(entries[..n], k);
      assert entries[i] == entries[..n][i];
      assert all[k] == front[k];
    } else {
      i := n;
      var j := k - |front|;
      ConcatIndex(front, last, k);
      assert Some(last[j].params) == SearchRunToken(entries[n].name);
    }
  }

  // ---------------------------------------------------------------------
  // create_summary_table

  /** The averaged metrics of one (parameters, variant) group. */
  datatype Metrics = Metrics(totalSum: real, mean: Option<real>, maxDiff: Option<real>)

  /** A floating-point quotient: a finite value, an infinity, or NaN. */
  datatype Quotient = Finite(value: real) | PosInf | NegInf | NotANumber

  /** `sum_ratio` and `sum_diff` of one summary row. */
  datatype Comparison = Comparison(sumRatio: Quotient, sumDiff: Option<real>)

  /** One row of the summary: the parameter tuple, each variant's metrics and the comparison columns. */
  datatype SummaryRow = SummaryRow(key: RunParams, cm: Option<Metrics>, m: Option<Metrics>, comparison: Option<Comparison>)

  /** The statistics of the records of one (parameters, variant) group, in table order. */
  function Group(records: seq<Record>, key: RunParams, target: string): (g: seq<Stats>)
    ensures |g| <= |records|
    ensures g == [] <==> forall k :: 0 <= k < |records| ==> records[k].params != key || records[k].target != target
    decreases |records|
  {
    if records == [] then []
    else
      var front := Group(records[..|records| - 1], key, target);
      var r := Last(records);
      assert forall k :: 0 <= k < |records| - 1 ==> records[..|records| - 1][k] == records[k];
      front + (if r.params == key && r.target == target then [r.stats] else [])
  }

  function TotalOf(g: seq<Stats>): int
    decreases |g|
  {
    if g == [] then 0 else TotalOf(g[..|g| - 1]) + Last(g).totalSum
  }

  /** The defined values among `xs` (pandas skips NaN), added up, and how many there are. */
  function DefinedSum(xs: seq<Option<real>>): (real, nat)
    decreases |xs|
  {
    if xs == [] then (0.0, 0)
    else
      var front := DefinedSum(xs[..|xs| - 1]);
      if Last(xs).Some? then (front.0 + Last(xs).value, front.1 + 1) else front
  }

  /** pandas' `mean` of a column with NaN: the mean of the defined values, NaN when there are none. */
  function MeanSkipNaN(xs: seq<Option<real>>): Option<real>
  {
    var sum := DefinedSum(xs);
    if sum.1 == 0 then None else Some(sum.0 / sum.1 as real)
  }

  function Means(g: seq<Stats>): (r: seq<Option<real>>)
    ensures |r| == |g| && forall i :: 0 <= i < |g| ==> r[i] == g[i].mean
  {
    seq(|g|, i requires 0 <= i < |g| => g[i].mean)
  }

  function MaxDiffs(g: seq<Stats>): (r: seq<Option<real>>)
    ensures |r| == |g| && forall i :: 0 <= i < |g| ==> r[i] == g[i].maxDiff
  {
    seq(|g|, i requires 0 <= i < |g| => g[i].maxDiff)
  }

  /** `groupby(...).agg('mean')` for one group: absent when no record has this key and variant. */
  function GroupMetrics(records: seq<Record>, key: RunParams, target: string): (r: Option<Metrics>)
    ensures r.Some? <==> exists k :: 0 <= k < |records| && records[k].params == key && records[k].target == target
  {
    var g := Group(records, key, target);
    if g == [] then None
    else Some(Metrics(TotalOf(g) as real / |g| as real, MeanSkipNaN(Means(g)), MeanSkipNaN(MaxDiffs(g))))
  }

  /**
   * `groupby` keeps each group in table order: a group lists the statistics
   * of exactly the records with that key and variant, by increasing position.
   */
  lemma {:induction false} GroupEnumerates(records: seq<Record>, key: RunParams, target: string) returns (idx: seq<nat>)
    ensures |idx| == |Group(records, key, target)|
    ensures forall i :: 0 <= i < |idx| ==>
      && idx[i] < |records|
      && records[idx[i]].params == key && records[idx[i]].target == target
      && Group(records, key, target)[i] == records[idx[i]].stats
    ensures forall i, j :: 0 <= i < j < |idx| ==> idx[i] < idx[j]
    ensures forall k :: 0 <= k < |records| && records[k].params == key && records[k].target == target ==> k in idx
    decreases |records|
  {
    if records == [] {
      idx := [];
    } else {
      var n := |records| - 1;
      var front := records[..n];
      var fidx := GroupEnumerates(front, key, target);
      var fg := Group(front, key, target);
      assert Enumerates(front, key, target, fg, fidx);
      GroupStep(records, key, target);
      if records[n].params == key && records[n].target == target {
        idx := fidx + [n];
        EnumerateMatch(records, key, target, fg, fidx);
      } else {
        idx := fidx;
        EnumerateSkip(records, key, target, fg, fidx);
      }
      assert Enumerates(records, key, target, Group(records, key, target), idx);
    }
  }

  /** `idx` lists, in increasing order, exactly the positions of the records with this key and variant, and `g` their statistics. */
  predicate Enumerates(records: seq<Record>, key: RunParams, target: string, g: seq<Stats>, idx: seq<nat>)
  {
    && |idx| == |g|
    && (forall i :: 0 <= i < |idx| ==>
          && idx[i] < |records|
          && records[idx[i]].params == key && records[idx[i]].target == target
          && g[i] == records[idx[i]].stats)
    && (forall i, j :: 0 <= i < j < |idx| ==> idx[i] < idx[j])
    && (forall k :: 0 <= k < |records| && records[k].params == key && records[k].target == target ==> k in idx)
  }

  lemma EnumerateMatch(records: seq<Record>, key: RunParams, target: string, fg: seq<Stats>, fidx: seq<nat>)
    requires records != []
    requires Enumerates(records[..|records| - 1], key, target, fg, fidx)
    requires Last(records).params == key && Last(records).target == target
    ensures Enumerates(records, key, target, fg + [Last(records).stats], fidx + [|records| - 1])
  {
    var n := |records| - 1;
    var idx := fidx + [n];
    forall k | 0 <= k < |records| && records[k].params == key && records[k].target == target
      ensures k in idx
    {
      if k < n {
        assert records[..n][k] == records[k];
      } else {
        assert idx[|fidx|] == k;
      }
    }
  }

  lemma EnumerateSkip(records: seq<Record>, key: RunParams, target: string, fg: seq<Stats>, fidx: seq<nat>)
    requires records != []
    requires Enumerates(records[..|records| - 1], key, target, fg, fidx)
    requires !(Last(records).params == key && Last(records).target == target)
    ensures Enumerates(records, key, target, fg, fidx)
  {
    var n := |records| - 1;
    forall k | 0 <= k < |records| && records[k].params == key && records[k].target == target
      ensures k in fidx
    {
      assert k < n && records[..n][k] == records[k];
    }
  }

  /** One more record extends its group by its statistics, or leaves the group as it was. */
  lemma GroupStep(records: seq<Record>, key: RunParams, target: string)
    requires records != []
    ensures var n := |records| - 1;
      Group(records, key, target) == Group(records[..n], key, target)
        + (if records[n].params == key && records[n].target == target then [records[n].stats] else [])
  {
  }

  lemma ScaleThenDivide(c: real, t: real)
    requires c > 0.0
    ensures (c * t) / c == t
  {
    assert (c * t) / c * c == c * t;
  }

  lemma {:induction false} TotalOfCopies(g: seq<Stats>, s: Stats)
    requires forall i :: 0 <= i < |g| ==> g[i] == s
    ensures TotalOf(g) as real == |g| as real * s.totalSum as real
    decreases |g|
  {
    if g != [] {
      TotalOfCopies(g[..|g| - 1], s);
      assert Last(g) == g[|g| - 1];
    }
  }

  lemma {:induction false} DefinedSumOfCopies(xs: seq<Option<real>>, x: Option<real>)
    requires forall i :: 0 <= i < |xs| ==> xs[i] == x
    ensures x.Some? ==> DefinedSum(xs).0 == |xs| as real * x.value && DefinedSum(xs).1 == |xs|
    ensures x.None? ==> DefinedSum(xs).0 == 0.0 && DefinedSum(xs).1 == 0
    decreases |xs|
  {
    if xs != [] {
      var m := |xs| - 1;
      var front := xs[..m];
      assert forall i :: 0 <= i < m ==> front[i] == xs[i];
      DefinedSumOfCopies(front, x);
      assert Last(xs) == x;
      if x.Some? {
        assert DefinedSum(xs) == (DefinedSum(front).0 + x.value, DefinedSum(front).1 + 1);
        assert DefinedSum(front).0 == m as real * x.value && DefinedSum(front).1 == m;
        assert m as real * x.value + x.value == (m + 1) as real * x.value;
        assert (m + 1) as real == |xs| as real;
      } else {
        assert DefinedSum(xs) == DefinedSum(front);
      }
    }
  }

  lemma MeanOfCopies(xs: seq<Option<real>>, x: Option<real>)
    requires xs != [] && forall i :: 0 <= i < |xs| ==> xs[i] == x
    ensures MeanSkipNaN(xs) == x
  {
    DefinedSumOfCopies(xs, x);
    if x.Some? {
      var sum := DefinedSum(xs);
      ScaleThenDivide(|xs| as real, x.value);
      assert sum.0 / sum.1 as real == x.value;
    }
  }

  lemma TotalAverageOfCopies(g: seq<Stats>, s: Stats)
    requires g != [] && forall i :: 0 <= i < |g| ==> g[i] == s
    ensures TotalOf(g) as real / |g| as real == s.totalSum as real
  {
    TotalOfCopies(g, s);
    ScaleThenDivide(|g| as real, s.totalSum as real);
  }

  /**
   * Averaging a group whose records all carry the same statistics gives
   * back their `total_sum`; in particular, so does a group of one record.
   */
  lemma GroupTotalOfCopies(records: seq<Record>, key: RunParams, target: string, s: Stats)
    requires Group(records, key, target) != []
    requires forall i :: 0 <= i < |Group(records, key, target)| ==> Group(records, key, target)[i] == s
    ensures GroupMetrics(records, key, target).Some?
    ensures GroupMetrics(records, key, target).value.totalSum == s.totalSum as real
  {
    TotalAverageOfCopies(Group(records, key, target), s);
  }

  /**
   * The same for the NaN-skipping means of `mean` and `max_diff`: identical
   * records give back their own values, NaN included.
   */
  lemma GroupMeansOfCopies(records: seq<Record>, key: RunParams, target: string, s: Stats)
    requires Group(records, key, target) != []
    requires forall i :: 0 <= i < |Group(records, key, target)| ==> Group(records, key, target)[i] == s
    ensures GroupMetrics(records, key, target).Some?
    ensures GroupMetrics(records, key, target).value.mean == s.mean
    ensures GroupMetrics(records, key, target).value.maxDiff == s.maxDiff
  {
    var g := Group(records, key, target);
    MeanOfCopies(Means(g), s.mean);
    MeanOfCopies(MaxDiffs(g), s.maxDiff);
  }

  /** The mean of two cells as pandas takes it: a NaN cell is skipped, two give NaN. */
  function MeanOfTwo(a: Option<real>, b: Option<real>): Option<real>
  {
    if a.Some? && b.Some? then Some((a.value + b.value) / 2.0)
    else if a.Some? then a
    else b
  }

  lemma DefinedSumOfTwo(a: Option<real>, b: Option<real>)
    ensures DefinedSum([a, b]).0 == (if a.Some? then a.value else 0.0) + (if b.Some? then b.value else 0.0)
    ensures DefinedSum([a, b]).1 == (if a.Some? then 1 else 0) + (if b.Some? then 1 else 0)
  {
    assert [a, b][..1] == [a] && Last([a, b]) == b;
    assert [a][..0] == [] && Last([a]) == a;
    var zero := DefinedSum([]);
    assert zero.0 == 0.0 && zero.1 == 0;
    var one := DefinedSum([a]);
    assert one.0 == (if a.Some? then a.value else 0.0) && one.1 == (if a.Some? then 1 else 0);
  }

  lemma MeanSkipNaNOfTwo(a: Option<real>, b: Option<real>)
    ensures MeanSkipNaN([a, b]) == MeanOfTwo(a, b)
  {
    DefinedSumOfTwo(a, b);
    var sum := DefinedSum([a, b]);
    var mean := MeanSkipNaN([a, b]);
    assert mean == if sum.1 == 0 then None else Some(sum.0 / sum.1 as real);
    if a.Some? && b.Some? {
      assert sum.0 == a.value + b.value && sum.1 == 2;
    } else if a.Some? {
      assert sum.0 == a.value && sum.1 as real == 1.0;
      assert sum.0 / sum.1 as real == a.value;
      assert mean == Some(a.value) == a;
    } else if b.Some? {
      assert sum.0 == b.value && sum.1 as real == 1.0;
      assert sum.0 / sum.1 as real == b.value;
      assert mean == Some(b.value) == b;
    } else {
      assert sum.1 == 0;
    }
  }

  /**
   * Two repetitions with different statistics average to their arithmetic
   * means: `total_sum` always, `mean` and `max_diff` with a NaN one skipped.
   */
  lemma GroupMetricsOfTwo(records: seq<Record>, key: RunParams, target: string, s1: Stats, s2: Stats)
    requires Group(records, key, target) == [s1, s2]
    ensures GroupMetrics(records, key, target) ==
      Some(Metrics((s1.totalSum + s2.totalSum) as real / 2.0,
                   MeanOfTwo(s1.mean, s2.mean), MeanOfTwo(s1.maxDiff, s2.maxDiff)))
  {
    var g := [s1, s2];
    assert g[..1] == [s1];
    assert [s1][..0] == [];
    assert TotalOf([s1]) == s1.totalSum;
    assert TotalOf(g) == TotalOf([s1]) + s2.totalSum;
    assert Means(g) == [s1.mean, s2.mean];
    assert MaxDiffs(g) == [s1.maxDiff, s2.maxDiff];
    MeanSkipNaNOfTwo(s1.mean, s2.mean);
    MeanSkipNaNOfTwo(s1.maxDiff, s2.maxDiff);
  }

  /** IEEE division of two finite doubles, as pandas divides two columns. */
  function Divide(a: real, b: real): (q: Quotient)
    ensures q.Finite? <==> b != 0.0
    ensures q.Finite? ==> q.value * b == a
    ensures q == PosInf <==> b == 0.0 && a > 0.0
    ensures q == NegInf <==> b == 0.0 && a < 0.0
    ensures q == NotANumber <==> b == 0.0 && a == 0.0
  {
    if b != 0.0 then Finite(a / b)
    else if a > 0.0 then PosInf
    else if a < 0.0 then NegInf
    else NotANumber
  }

  /** The comparison columns of a row; a missing variant makes both NaN. */
  function Compare(cm: Option<Metrics>, m: Option<Metrics>): (c: Comparison)
    ensures cm.None? || m.None? ==> c == Comparison(NotANumber, None)
    ensures cm.Some? && m.Some? ==> c.sumDiff == Some(cm.value.totalSum - m.value.totalSum)
    ensures cm.Some? && m.Some? ==> c.sumRatio == Divide(cm.value.totalSum, m.value.totalSum)
  {
    if cm.Some? && m.Some? then
      Comparison(Divide(cm.value.totalSum, m.value.totalSum), Some(cm.value.totalSum - m.value.totalSum))
    else Comparison(NotANumber, None)
  }

  /** Some record has variant `target`: the pivot then has that variant's columns. */
  predicate HasTarget(records: seq<Record>, target: string)
    decreases |records|
  {
    records != [] && (Last(records).target == target || HasTarget(records[..|records| - 1], target))
  }

  /** Both variants occur: the comparison columns are added. */
  predicate BothVariants(records: seq<Record>)
  {
    HasTarget(records, "cm") && HasTarget(records, "m")
  }

  /** The final order: threads, then shared objects, then coroutines, then the rest of the tuple. */
  predicate Before(a: RunParams, b: RunParams)
  {
    a.threads < b.threads
    || (a.threads == b.threads && a.shared < b.shared)
    || (a.threads == b.threads && a.shared == b.shared && a.coro < b.coro)
    || (a.threads == b.threads && a.shared == b.shared && a.coro == b.coro && a.dump < b.dump)
    || (a.threads == b.threads && a.shared == b.shared && a.coro == b.coro && a.dump == b.dump
        && a.worktime < b.worktime)
  }

  predicate StrictlySorted(keys: seq<RunParams>)
  {
    forall i, j :: 0 <= i < j < |keys| ==> Before(keys[i], keys[j])
  }

  /** Adds `k` to a strictly sorted sequence of distinct keys, unless it is there already. */
  function InsertKey(keys: seq<RunParams>, k: RunParams): (r: seq<RunParams>)
    requires StrictlySorted(keys)
    ensures StrictlySorted(r)
    ensures forall x :: x in r <==> x in keys || x == k
    decreases |keys|
  {
    if keys == [] then [k]
    else if keys[0] == k then keys
    else if Before(k, keys[0]) then [k] + keys
    else
      var rest := InsertKey(keys[1..], k);
      assert forall x :: x in keys <==> x == keys[0] || x in keys[1..];
      assert forall x :: x in rest ==> Before(keys[0], x) by {
        forall x | x in rest ensures Before(keys[0], x) {
          if x in keys[1..] {
            var j :| 0 <= j < |keys[1..]| && keys[1..][j] == x;
            assert keys[j + 1] == x;
          }
        }
      }
      [keys[0]] + rest
  }

  /** The distinct parameter tuples of the records, in the final order. */
  function SortedKeys(records: seq<Record>): (r: seq<RunParams>)
    ensures StrictlySorted(r)
    ensures forall x :: x in r <==> exists k :: 0 <= k < |records| && records[k].params == x
    decreases |records|
  {
    if records == [] then []
    else
      var front := records[..|records| - 1];
      var keys := SortedKeys(front);
      assert forall k :: 0 <= k < |front| ==> front[k] == records[k];
      InsertKey(keys, Last(records).params)
  }

  /** The pivot row of one parameter tuple. */
  function SummaryRowOf(records: seq<Record>, key: RunParams, withComparison: bool): (row: SummaryRow)
    ensures row.key == key
    ensures row.cm == GroupMetrics(records, key, "cm") && row.m == GroupMetrics(records, key, "m")
    ensures row.comparison.Some? <==> withComparison
    ensures row.comparison.Some? ==> row.comparison.value == Compare(row.cm, row.m)
  {
    var cm := GroupMetrics(records, key, "cm");
    var m := GroupMetrics(records, key, "m");
    SummaryRow(key, cm, m, if withComparison then Some(Compare(cm, m)) else None)
  }

  /** The pivot rows of `keys`, in the order of `keys`. */
  function RowsOf(records: seq<Record>, keys: seq<RunParams>, withComparison: bool): (rows: seq<SummaryRow>)
    ensures |rows| == |keys|
    ensures forall i :: 0 <= i < |keys| ==> rows[i].key == keys[i]
    ensures forall i :: 0 <= i < |keys| ==>
      rows[i].cm == GroupMetrics(records, keys[i], "cm") && rows[i].m == GroupMetrics(records, keys[i], "m")
    ensures forall i :: 0 <= i < |keys| ==> (rows[i].comparison.Some? <==> withComparison)
    ensures forall i :: 0 <= i < |keys| ==>
      rows[i].comparison.Some? ==> rows[i].comparison.value == Compare(rows[i].cm, rows[i].m)
  {
    seq(|keys|, i requires 0 <= i < |keys| => SummaryRowOf(records, keys[i], withComparison))
  }

  /**
   * The pivoted and sorted table: one row per distinct parameter tuple, in
   * the final order; each variant's cells are the means of its group; the
   * comparison columns exist only when both variants occur in the table.
   */
  function PivotRows(records: seq<Record>): (rows: seq<SummaryRow>)
    ensures |rows| == |SortedKeys(records)|
    ensures forall i :: 0 <= i < |rows| ==> rows[i].key == SortedKeys(records)[i]
    ensures forall i :: 0 <= i < |rows| ==>
      rows[i].cm == GroupMetrics(records, rows[i].key, "cm") && rows[i].m == GroupMetrics(records, rows[i].key, "m")
    ensures forall i :: 0 <= i < |rows| ==> (rows[i].comparison.Some? <==> BothVariants(records))
  {
    RowsOf(records, SortedKeys(records), BothVariants(records))
  }

  /**
   * Some record of variant `target` has a defined `cv`. Otherwise the
   * variant's `cv` cell is NaN in every pivot row, and `pivot_table`, which
   * drops all-NaN columns by default, leaves out the `cv_<target>` column.
   */
  predicate HasCv(records: seq<Record>, target: string)
  {
    exists k :: 0 <= k < |records| && records[k].target == target && !records[k].stats.cvUndefined
  }

  /**
   * A variant's pivot column of `cv` is all NaN exactly when every group of
   * that variant has only NaN `cv` values (groupby's mean skips NaN).
   */
  lemma CvColumnDropped(records: seq<Record>, target: string)
    ensures !HasCv(records, target) <==>
      forall key, i :: 0 <= i < |Group(records, key, target)| ==> Group(records, key, target)[i].cvUndefined
  {
    if HasCv(records, target) {
      var k :| 0 <= k < |records| && records[k].target == target && !records[k].stats.cvUndefined;
      var key := records[k].params;
      var idx := GroupEnumerates(records, key, target);
      var i :| 0 <= i < |idx| && idx[i] == k;
      assert !Group(records, key, target)[i].cvUndefined;
    } else {
      forall key, i | 0 <= i < |Group(records, key, target)| ensures Group(records, key, target)[i].cvUndefined {
        var idx := GroupEnumerates(records, key, target);
        assert records[idx[i]].target == target;
      }
    }
  }

  /**
   * `create_summary_table`: the pivot rows; but when both variants occur
   * and one of them has no `cv` column, computing `cv_diff` raises a
   * `KeyError` naming the missing column, `cv_cm` looked up first.
   */
  function CreateSummaryTable(records: seq<Record>): (r: Result<seq<SummaryRow>, string>)
    ensures r.Err? <==> BothVariants(records) && (!HasCv(records, "cm") || !HasCv(records, "m"))
    ensures r.Err? ==> r.error == (if HasCv(records, "cm") then "cv_m" else "cv_cm")
    ensures r.Ok? ==> r.value == PivotRows(records)
  {
    if BothVariants(records) && !HasCv(records, "cm") then Err("cv_cm")
    else if BothVariants(records) && !HasCv(records, "m") then Err("cv_m")
    else Ok(PivotRows(records))
  }

  /**
   * The summary is empty exactly when the raw table is, and its rows are
   * sorted by threads, shared objects, coroutines, dump period and working
   * time, with no tuple twice.
   */
  lemma SummaryRowsSorted(records: seq<Record>)
    ensures records == [] <==> PivotRows(records) == []
    ensures var rows := PivotRows(records);
      forall i, j :: 0 <= i < j < |rows| ==> Before(rows[i].key, rows[j].key)
  {
    var keys := SortedKeys(records);
    if records != [] {
      assert records[0].params in keys;
    }
  }

  /** Every parameter tuple of the raw table has a row in the summary. */
  lemma SummaryCoversRecords(records: seq<Record>, k: nat)
    requires k < |records|
    ensures var rows := PivotRows(records);
      exists i :: 0 <= i < |rows| && rows[i].key == records[k].params
  {
    var keys := SortedKeys(records);
    var rows := PivotRows(records);
    assert records[k].params in keys;
    var i :| 0 <= i < |keys| && keys[i] == records[k].params;
    assert rows[i].key == records[k].params;
  }

  /** Every row of the summary comes from a run of the raw table. */
  lemma SummaryRowsFromRecords(records: seq<Record>, i: nat)
    requires i < |PivotRows(records)|
    ensures exists k :: 0 <= k < |records| && records[k].params == PivotRows(records)[i].key
  {
    var keys := SortedKeys(records);
    assert keys[i] in keys;
  }

  // ---------------------------------------------------------------------
  // main

  /** What `main` does: stop when there is no data, abort on the summary's error, else save the two tables. */
  datatype SummaryOutcome =
    | NoData
    | Raised(error: string)
    | Saved(summaryFile: string, rawFile: string, summary: seq<SummaryRow>, raw: seq<Record>)

  /**
   * `main`, with `stamp` the `%Y%m%d_%H%M%S` text of the current time: the
   * raw table is collected; when it is empty nothing is written, and when
   * the summary raises, `main` aborts before writing either file.
   */
  function SummaryMain(entries: seq<Entry>, stamp: string): (r: SummaryOutcome)
    ensures r.NoData? <==> Collect(entries) == []
    ensures r.Raised? <==> Collect(entries) != [] && CreateSummaryTable(Collect(entries)).Err?
    ensures r.Raised? ==> r.error == CreateSummaryTable(Collect(entries)).error
    ensures r.Saved? ==>
      r.summaryFile == "enhanced_summary_" + stamp + ".csv" && r.rawFile == "raw_data_" + stamp + ".csv"
      && r.raw == Collect(entries) && r.summary == PivotRows(Collect(entries))
  {
    var raw := Collect(entries);
    if raw == [] then NoData
    else
      match CreateSummaryTable(raw)
      case Err(e) => Raised(e)
      case Ok(summary) => Saved("enhanced_summary_" + stamp + ".csv", "raw_data_" + stamp + ".csv", summary, raw)
  }
}
