/**
 * `counterDumper`: appends one CSV row per dump to its file, holding the time
 * since `start` as `H:M:S.ms`, every counter in index order and their total.
 * Clock readings are `steady_clock` values in nanoseconds, passed in by the
 * caller; the worker thread that calls `dump` every interval is not part of
 * this model.
 */
module CounterDumper {
  import opened Wrappers
  import opened Text
  import opened Counter
  import opened Files

  const NsPerMs: nat := 1_000_000
  const NsPerSecond: nat := 1_000_000_000
  const NsPerMinute: nat := 60_000_000_000
  const NsPerHour: nat := 3_600_000_000_000

  /** The elapsed time in whole hours, minutes, seconds and milliseconds. */
  datatype Clock = Clock(hours: nat, minutes: nat, seconds: nat, millis: nat)

  /**
   * The reference reading of an elapsed time: its whole milliseconds written
   * in the mixed radix hours : 60 minutes : 60 seconds : 1000 milliseconds.
   */
  function ClockOf(elapsed: nat): Clock
  {
    var ms := elapsed / 1_000_000;
    Clock(ms / 3_600_000, ms / 60_000 % 60, ms / 1000 % 60, ms % 1000)
  }

  /**
   * `duration_cast` to hours, minutes, seconds and milliseconds, each time
   * subtracting what was taken: the parts are the reference reading, and
   * whatever is below a millisecond is dropped.
   */
  method DecomposeElapsed(elapsed: nat) returns (c: Clock)
    ensures c.minutes < 60 && c.seconds < 60 && c.millis < 1000
    ensures ((c.hours * 60 + c.minutes) * 60 + c.seconds) * 1000 + c.millis == elapsed / NsPerMs
    ensures c == ClockOf(elapsed)
  {
    var rest := elapsed;
    var hours := rest / NsPerHour;
    rest := rest - hours * NsPerHour;
    var minutes := rest / NsPerMinute;
    rest := rest - minutes * NsPerMinute;
    var seconds := rest / NsPerSecond;
    rest := rest - seconds * NsPerSecond;
    var millis := rest / NsPerMs;
    c := Clock(hours, minutes, seconds, millis);
    MixedRadix(elapsed, c);
  }

  /** The successive truncations give the mixed-radix digits of the whole milliseconds. */
  lemma MixedRadix(elapsed: nat, c: Clock)
    requires c.hours == elapsed / NsPerHour
    requires c.minutes == (elapsed - c.hours * NsPerHour) / NsPerMinute
    requires c.seconds == (elapsed - c.hours * NsPerHour - c.minutes * NsPerMinute) / NsPerSecond
    requires c.millis == (elapsed - c.hours * NsPerHour - c.minutes * NsPerMinute - c.seconds * NsPerSecond) / NsPerMs
    ensures c.minutes < 60 && c.seconds < 60 && c.millis < 1000
    ensures ((c.hours * 60 + c.minutes) * 60 + c.seconds) * 1000 + c.millis == elapsed / NsPerMs
    ensures c == ClockOf(elapsed)
  {
    var ms := elapsed / NsPerMs;
    var total := ((c.hours * 60 + c.minutes) * 60 + c.seconds) * 1000 + c.millis;
    assert elapsed == total * NsPerMs + (elapsed - c.hours * NsPerHour - c.minutes * NsPerMinute - c.seconds * NsPerSecond) % NsPerMs;
    assert total == ms;
    Radix(ms, c);
  }

  lemma Radix(ms: nat, c: Clock)
    requires c.minutes < 60 && c.seconds < 60 && c.millis < 1000
    requires ((c.hours * 60 + c.minutes) * 60 + c.seconds) * 1000 + c.millis == ms
    ensures ms / 3_600_000 == c.hours && ms / 60_000 % 60 == c.minutes
    ensures ms / 1000 % 60 == c.seconds && ms % 1000 == c.millis
  {
    var secs := (c.hours * 60 + c.minutes) * 60 + c.seconds;
    assert ms / 1000 == secs && ms % 1000 == c.millis;
    var mins := c.hours * 60 + c.minutes;
    assert secs / 60 == mins && secs % 60 == c.seconds;
    assert ms / 60_000 == mins by { assert ms == mins * 60_000 + (c.seconds * 1000 + c.millis); }
    assert ms / 3_600_000 == c.hours by { assert ms == c.hours * 3_600_000 + (c.minutes * 60_000 + c.seconds * 1000 + c.millis); }
  }

  /** `HH:MM:SS.mmm`, each part zero-padded to at least 2, 2, 2 and 3 digits. */
  function ClockField(c: Clock): string
  {
    ZeroPad(NatToString(c.hours), 2) + ":" + ZeroPad(NatToString(c.minutes), 2) + ":"
    + ZeroPad(NatToString(c.seconds), 2) + "." + ZeroPad(NatToString(c.millis), 3)
  }

  /** The counters as written: unpadded, in index order. */
  function Numerals(values: seq<int>): (r: seq<string>)
    ensures |r| == |values|
    ensures forall i :: 0 <= i < |values| ==> r[i] == IntToString(values[i])
  {
    seq(|values|, i requires 0 <= i < |values| => IntToString(values[i]))
  }

  /** The counter fields with a `,` between consecutive ones. */
  function CounterFields(values: seq<int>): string
  {
    Join(Numerals(values), ',')
  }

  /** One row of the dump file: time, counters, total, and a line feed. */
  function Row(c: Clock, values: seq<int>, total: int): string
  {
    ClockField(c) + "," + CounterFields(values) + "," + IntToString(total) + "\n"
  }

  /** The row a dump appends when `elapsed` nanoseconds have gone by and the counters hold `values`. */
  function DumpRow(elapsed: nat, values: seq<int>): string
  {
    Row(ClockOf(elapsed), values, Sum(values))
  }

  lemma NumeralsAppend(values: seq<int>, i: nat)
    requires i < |values|
    ensures Numerals(values[..i + 1]) == Numerals(values[..i]) + [IntToString(values[i])]
  {
  }

  /** Adding one more counter to the written fields: a `,` (not before the first) and its numeral. */
  lemma CounterFieldsStep(values: seq<int>, i: nat)
    requires i < |values|
    ensures CounterFields(values[..i + 1])
         == CounterFields(values[..i]) + (if i != 0 then "," else "") + IntToString(values[i])
  {
    NumeralsAppend(values, i);
    if i == 0 {
      assert Numerals(values[..1]) == [IntToString(values[0])];
    } else {
      JoinAppend(Numerals(values[..i]), IntToString(values[i]), ',');
    }
  }

  class CounterDumper {
    const counter: AtomicMultipleCounter
    const filename: string
    /** The worker's sleep between dumps, in milliseconds. */
    const interval: nat
    var running: bool
    /** The `steady_clock` reading of the last `start`; the clock's epoch before any. */
    var startTime: nat

    constructor (counter: AtomicMultipleCounter, filename: string, interval: nat)
      ensures this.counter == counter && this.filename == filename && this.interval == interval
      ensures !running && startTime == 0
    {
      this.counter := counter;
      this.filename := filename;
      this.interval := interval;
      running := false;
      startTime := 0;
    }

    /** Marks the dumper running and records the start time; a second start changes nothing. */
    method Start(now: nat)
      modifies this`running, this`startTime
      ensures running
      ensures startTime == if old(running) then old(startTime) else now
    {
      if running {
        return;
      }
      running := true;
      startTime := now;
    }

    /**
     * Appends the current row to the file when it opens; otherwise writes
     * nothing and reports the error that is logged.
     */
    method Dump(now: nat, fs: FileStore) returns (error: Option<string>)
      requires now >= startTime
      modifies fs`contents
      ensures filename in fs.openable ==>
        error == None
        && fs.contents == old(fs.contents)[filename := TextOf(old(fs.contents), filename)
                                                       + DumpRow(now - old(startTime), old(counter.counters[..]))]
      ensures filename !in fs.openable ==>
        error == Some("Failed to open file: " + filename) && fs.contents == old(fs.contents)
    {
      if filename in fs.openable {
        var c := DecomposeElapsed(now - startTime);
        var line := FormatRow(c);
        var _ := fs.Append(filename, line);
        error := None;
      } else {
        error := Some("Failed to open file: " + filename);
      }
    }

    /** The row text for the time `c`: the counters in index order, then their total. */
    method FormatRow(c: Clock) returns (line: string)
      ensures line == Row(c, counter.counters[..], Sum(counter.counters[..]))
    {
      var values := counter.counters[..];
      line := ClockField(c) + ",";
      var i := 0;
      while i < counter.Size()
        invariant 0 <= i <= counter.counters.Length
        invariant line == ClockField(c) + "," + CounterFields(values[..i])
      {
        CounterFieldsStep(values, i);
        if i != 0 {
          line := line + ",";
        }
        line := line + IntToString(counter.Get(i));
        i := i + 1;
      }
      assert values[..i] == values;
      var total := counter.GetTotal();
      line := line + "," + IntToString(total) + "\n";
    }

    /** Clears the running flag and appends one final row. */
    method Stop(now: nat, fs: FileStore) returns (error: Option<string>)
      requires now >= startTime
      modifies this`running, fs`contents
      ensures !running && startTime == old(startTime)
      ensures filename in fs.openable ==>
        error == None
        && fs.contents == old(fs.contents)[filename := TextOf(old(fs.contents), filename)
                                                       + DumpRow(now - old(startTime), old(counter.counters[..]))]
      ensures filename !in fs.openable ==>
        error == Some("Failed to open file: " + filename) && fs.contents == old(fs.contents)
    {
      running := false;
      error := Dump(now, fs);
    }

    /**
     * `~counterDumper` stops the dumper once more. `main` has already called
     * `stop`, so when the global dumper is destroyed at exit the counter file
     * receives a second final row.
     */
    method Destroy(now: nat, fs: FileStore) returns (error: Option<string>)
      requires now >= startTime
      modifies this`running, fs`contents
      ensures !running && startTime == old(startTime)
      ensures filename in fs.openable ==>
        error == None
        && fs.contents == old(fs.contents)[filename := TextOf(old(fs.contents), filename)
                                                       + DumpRow(now - old(startTime), old(counter.counters[..]))]
      ensures filename !in fs.openable ==>
        error == Some("Failed to open file: " + filename) && fs.contents == old(fs.contents)
    {
      error := Stop(now, fs);
    }
  }

  /** No written number holds a `,`. */
  lemma NoCommaInNumeral(i: int)
    ensures ',' !in IntToString(i)
  {
    var s := NatToString(if i < 0 then -i else i);
    assert forall k :: 0 <= k < |s| ==> s[k] != ',';
    if i < 0 {
      var t := IntToString(i);
      assert t == "-" + s;
      forall k | 0 <= k < |t| ensures t[k] != ',' {
        if k > 0 { assert t[k] == s[k - 1]; }
      }
    }
  }

  lemma NoCommaInClock(c: Clock)
    ensures ',' !in ClockField(c)
  {
    var f := ClockField(c);
    var h := ZeroPad(NatToString(c.hours), 2);
    var m := ZeroPad(NatToString(c.minutes), 2);
    var s := ZeroPad(NatToString(c.seconds), 2);
    var ms := ZeroPad(NatToString(c.millis), 3);
    assert f == h + ":" + m + ":" + s + "." + ms;
    assert AllDigits(h) && AllDigits(m) && AllDigits(s) && AllDigits(ms);
    forall k | 0 <= k < |f| ensures f[k] != ',' {
      if k < |h| { assert f[k] == h[k]; }
      else if k == |h| { }
      else if k < |h| + 1 + |m| { assert f[k] == m[k - |h| - 1]; }
      else if k == |h| + 1 + |m| { }
      else if k < |h| + 2 + |m| + |s| { assert f[k] == s[k - |h| - 2 - |m|]; }
      else if k == |h| + 2 + |m| + |s| { }
      else { assert f[k] == ms[k - |h| - 3 - |m| - |s|]; }
    }
  }

  /**
   * Split at `,`, a row (without its line feed) gives the time, each counter
   * in index order and the total: `size() + 2` fields, or 3 with the empty
   * middle field when there are no counters.
   */
  lemma RowFields(c: Clock, values: seq<int>, total: int)
    ensures var row := Row(c, values, total);
      Split(row[..|row| - 1], ',')
      == [ClockField(c)] + (if values == [] then [""] else Numerals(values)) + [IntToString(total)]
    ensures var row := Row(c, values, total);
      |Split(row[..|row| - 1], ',')| == if values == [] then 3 else |values| + 2
  {
    var row := Row(c, values, total);
    var middle := if values == [] then [""] else Numerals(values);
    var parts := [ClockField(c)] + middle + [IntToString(total)];
    assert Join(middle, ',') == CounterFields(values);
    JoinPrepend(ClockField(c), middle, ',');
    JoinAppend([ClockField(c)] + middle, IntToString(total), ',');
    assert row[..|row| - 1] == Join(parts, ',');
    NoCommaInClock(c);
    NoCommaInNumeral(total);
    forall i | 0 <= i < |middle| ensures ',' !in middle[i] {
      if values != [] { NoCommaInNumeral(values[i]); }
    }
    SplitJoin(parts, ',');
  }
}
