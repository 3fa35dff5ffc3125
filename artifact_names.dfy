/**
 * The shapes of the benchmark's artifact names and the scanners the Python
 * tools use to read them back.
 *
 * A run file is named
 *   `YYYY-MM-DD_HH-MM-SS_threads_<n>_coro_<c>_shared_<s>_target_<t>_dump_<d>_worktime_<w>`
 * followed by `.csv`, `.log` or `.usage`; a run directory carries the token
 *   `threads_<n>_coro_<c>_shared_<s>_dump_<d>_worktime_<w>`
 * somewhere in its name.
 *
 * Each regular expression of the tools is written out as a scanner over the
 * text that is still to be matched. A `(\d+)` followed by a literal that does
 * not start with a digit can only match the maximal run of digits, so the
 * scanners take that run. The one group that backtracks is the `(\w+)` target,
 * which is followed by `_dump_`, itself made of word characters: Python tries
 * the longest run of word characters first and gives characters back one at a
 * time until the rest of the pattern matches; `LongestTarget` does the same.
 */
module ArtifactNames {
  import opened Wrappers
  import opened Text

  /** The five numeric run parameters, in the order the names list them. */
  datatype RunParams = RunParams(threads: nat, coro: nat, shared: nat, dump: nat, worktime: nat)

  /**
   * What a `parse_filename` returns: the timestamp with `_` replaced by a
   * space, the five numbers and the target text.
   */
  datatype RunFileFields = RunFileFields(timestamp: string, params: RunParams, target: string)

  /** A greedy `(\d+)` read at the head of some text: its value and the text after it. */
  datatype Numbered = Numbered(value: nat, rest: string)

  /** The literal `lit` at the head of `s`; the text after it. */
  function Expect(s: string, lit: string): (r: Option<string>)
    ensures r.Some? <==> StartsWith(s, lit)
    ensures r.Some? ==> s == lit + r.value
  {
    if StartsWith(s, lit) then Some(s[|lit|..]) else None
  }

  /** A greedy `(\d+)` at the head of `s`, read as Python's `int()` reads it. */
  function Number(s: string): Option<Numbered>
  {
    var k := DigitRun(s);
    if k == 0 then None else Some(Numbered(ParseDigits(s[..k]), s[k..]))
  }

  /** The numeral of `n` followed by text that does not start with a digit reads back as `n`. */
  lemma NumberOfNumeral(n: nat, rest: string)
    requires rest == [] || !IsDigit(rest[0])
    ensures Number(NatToString(n) + rest) == Some(Numbered(n, rest))
  {
    var d := NatToString(n);
    DigitRunOfDigits(d, rest);
    assert (d + rest)[..|d|] == d && (d + rest)[|d|..] == rest;
    NatToStringRoundTrip(n);
  }

  /** `\d{4}-\d{2}-\d{2}_\d{2}-\d{2}-\d{2}`: the shape of a run timestamp. */
  predicate StampShape(t: string)
  {
    |t| == 19
    && AllDigits(t[0..4]) && t[4] == '-' && AllDigits(t[5..7]) && t[7] == '-' && AllDigits(t[8..10])
    && t[10] == '_'
    && AllDigits(t[11..13]) && t[13] == '-' && AllDigits(t[14..16]) && t[16] == '-' && AllDigits(t[17..19])
  }

  /** The base name the benchmark writes: timestamp, the five parameters and the target. */
  function RunFileBase(stamp: string, p: RunParams, target: string): string
  {
    stamp + "_threads_" + NatToString(p.threads) + "_coro_" + NatToString(p.coro)
    + "_shared_" + NatToString(p.shared) + "_target_" + target + DumpPart(p.dump, p.worktime)
  }

  /** A literal followed by a greedy `(\d+)`: the shape of every numeric field of the names. */
  function Field(s: string, lit: string): (r: Option<Numbered>)
    ensures r.Some? ==> StartsWith(s, lit)
  {
    var r0 :- Expect(s, lit);
    Number(r0)
  }

  lemma FieldOfNumeral(lit: string, n: nat, rest: string)
    requires rest == [] || !IsDigit(rest[0])
    ensures Field(lit + NatToString(n) + rest, lit) == Some(Numbered(n, rest))
  {
    var s := lit + NatToString(n) + rest;
    assert s[..|lit|] == lit && s[|lit|..] == NatToString(n) + rest;
    NumberOfNumeral(n, rest);
  }

  /** `_dump_(\d+)_worktime_(\d+)\.<ext>` at the head of `s`: the dump interval and the work time. */
  function MatchTail(s: string, ext: string): (r: Option<(nat, nat)>)
    ensures r.Some? ==> StartsWith(s, "_dump_")
  {
    var d :- Field(s, "_dump_");
    var w :- Field(d.rest, "_worktime_");
    var _ :- Expect(w.rest, "." + ext);
    Some((d.value, w.value))
  }

  /** The word characters between the target and the extension: `_dump_<d>_worktime_<w>`. */
  function DumpPart(dump: nat, work: nat): string
  {
    "_dump_" + NatToString(dump) + "_worktime_" + NatToString(work)
  }

  /** What follows the target in a run file's name. */
  function TailText(dump: nat, work: nat, ext: string, rest: string): string
  {
    DumpPart(dump, work) + ("." + ext + rest)
  }

  lemma TailRoundTrip(dump: nat, work: nat, ext: string, rest: string)
    ensures MatchTail(TailText(dump, work, ext, rest), ext) == Some((dump, work))
  {
    var after := "." + ext + rest;
    assert TailText(dump, work, ext, rest) == "_dump_" + NatToString(dump) + ("_worktime_" + NatToString(work) + after);
    FieldOfNumeral("_dump_", dump, "_worktime_" + NatToString(work) + after);
    FieldOfNumeral("_worktime_", work, after);
    assert after[..|"." + ext|] == "." + ext;
  }

  /**
   * The largest `j` in `1..k` for which the rest of the run-file pattern
   * matches after a target group of `j` characters of `s`: how a backtracking
   * regex engine settles the length of the greedy `(\w+)` that it first let
   * run to `k` characters and then shortens one character at a time.
   */
  function LongestTarget(s: string, ext: string, k: nat): (r: Option<nat>)
    requires k <= |s|
    ensures r.Some? ==> 1 <= r.value <= k
  {
    if k == 0 then None
    else if MatchTail(s[k..], ext).Some? then Some(k)
    else LongestTarget(s, ext, k - 1)
  }

  /** The numbers between the timestamp and the target, and the text after `_target_`. */
  datatype Head = Head(threads: nat, coro: nat, shared: nat, rest: string)

  /** The target group and the two numbers after it. */
  datatype TargetTail = TargetTail(target: string, dump: nat, worktime: nat)

  /** `_threads_(\d+)_coro_(\d+)_shared_(\d+)_target_` at the head of `s`. */
  function MatchHead(s: string): Option<Head>
  {
    var t :- Field(s, "_threads_");
    var c :- Field(t.rest, "_coro_");
    var sh :- Field(c.rest, "_shared_");
    var r :- Expect(sh.rest, "_target_");
    Some(Head(t.value, c.value, sh.value, r))
  }

  /** `(\w+)_dump_(\d+)_worktime_(\d+)\.<ext>` at the head of `s`, with the group backtracking. */
  function MatchTarget(s: string, ext: string): (r: Option<TargetTail>)
    ensures r.Some? ==> |r.value.target| > 0 && AllWordChars(r.value.target)
  {
    var k :- LongestTarget(s, ext, WordRun(s));
    var tail :- MatchTail(s[k..], ext);
    WordPrefix(s, k);
    Some(TargetTail(s[..k], tail.0, tail.1))
  }

  /** Every head of the greedy word run is made of word characters. */
  lemma WordPrefix(s: string, k: nat)
    requires k <= WordRun(s)
    ensures AllWordChars(s[..k])
  {
    var n := WordRun(s);
    assert forall i :: 0 <= i < k ==> s[..k][i] == s[..n][i];
  }

  /**
   * `re.match` of
   * `(\d{4}-\d{2}-\d{2}_\d{2}-\d{2}-\d{2})_threads_(\d+)_coro_(\d+)_shared_(\d+)_target_(\w+)_dump_(\d+)_worktime_(\d+)\.<ext>`
   * against `s`: anchored at the start, not at the end.
   */
  function MatchRunFile(s: string, ext: string): (r: Option<RunFileFields>)
    ensures r.Some? ==> |s| >= 19 && StampShape(s[..19])
    ensures r.Some? ==> |r.value.target| > 0 && AllWordChars(r.value.target)
  {
    if |s| < 19 || !StampShape(s[..19]) then None
    else
      var h :- MatchHead(s[19..]);
      var t :- MatchTarget(h.rest, ext);
      Some(RunFileFields(StampText(s[..19]), RunParams(h.threads, h.coro, h.shared, t.dump, t.worktime), t.target))
  }

  /** `stamp.replace('_', ' ')` for a run timestamp: only the separator at index 10 changes. */
  function StampText(stamp: string): (r: string)
    requires StampShape(stamp)
    ensures |r| == 19 && r[10] == ' '
    ensures forall i :: 0 <= i < 19 && i != 10 ==> r[i] == stamp[i]
  {
    stamp[..10] + " " + stamp[11..]
  }

  /** `StampText` is Python's `replace('_', ' ')` on a run timestamp. */
  lemma {:induction false} StampTextIsReplace(stamp: string)
    requires StampShape(stamp)
    ensures StampText(stamp) == ReplaceAll(stamp, "_", " ")
  {
    assert '_' !in stamp[..10] by {
      forall i | 0 <= i < 10 ensures stamp[i] != '_' {
        if i < 4 { assert stamp[0..4][i] == stamp[i]; }
        else if 4 < i < 7 { assert stamp[5..7][i - 5] == stamp[i]; }
        else if 7 < i { assert stamp[8..10][i - 8] == stamp[i]; }
      }
    }
    assert '_' !in stamp[11..] by {
      forall i | 11 <= i < 19 ensures stamp[i] != '_' {
        if i < 13 { assert stamp[11..13][i - 11] == stamp[i]; }
        else if 13 < i < 16 { assert stamp[14..16][i - 14] == stamp[i]; }
        else if 16 < i { assert stamp[17..19][i - 17] == stamp[i]; }
      }
    }
    ReplaceAllAbsent(stamp[..10] + "_" + stamp[11..], stamp[..10], stamp[11..]);
    assert stamp == stamp[..10] + "_" + stamp[11..];
  }

  lemma {:induction false} ReplaceAllAbsent(s: string, a: string, b: string)
    requires s == a + "_" + b
    requires '_' !in a && '_' !in b
    ensures ReplaceAll(s, "_", " ") == a + " " + b
    decreases |a|
  {
    if a == [] {
      assert s[..1] == "_" && s[1..] == b;
      ReplaceAllNone(b, "_", " ");
    } else {
      assert s[..1] == [a[0]] && s[1..] == a[1..] + "_" + b;
      ReplaceAllAbsent(s[1..], a[1..], b);
      assert a == [a[0]] + a[1..];
    }
  }

  lemma {:induction false} ReplaceAllNone(s: string, c: string, rep: string)
    requires |c| == 1 && c[0] !in s
    ensures ReplaceAll(s, c, rep) == s
    decreases |s|
  {
    if s != [] {
      assert s[..1] == [s[0]];
      ReplaceAllNone(s[1..], c, rep);
      assert s == [s[0]] + s[1..];
    }
  }

  /** The word characters after the target: all are word characters, and the only `d` is at index 1. */
  lemma DumpPartWords(dump: nat, work: nat)
    ensures AllWordChars(DumpPart(dump, work))
    ensures |DumpPart(dump, work)| >= 2 && 'd' !in DumpPart(dump, work)[2..]
  {
    var d := NatToString(dump);
    var w := NatToString(work);
    var p := DumpPart(dump, work);
    forall j | 0 <= j < |p| ensures IsWordChar(p[j]) {
      if j < 6 { assert p[j] == "_dump_"[j]; }
      else if j < 6 + |d| { assert p[j] == d[j - 6]; }
      else if j < 16 + |d| { assert p[j] == "_worktime_"[j - 6 - |d|]; }
      else { assert p[j] == w[j - 16 - |d|]; }
    }
    assert p[2..] == "ump_" + d + "_worktime_" + w;
    assert forall i :: 0 <= i < |d| ==> d[i] != 'd';
    assert forall i :: 0 <= i < |w| ==> w[i] != 'd';
  }

  /** Word characters followed by a `.`: the greedy `\w+` runs up to the `.`. */
  lemma WordsThenDot(target: string, p: string, after: string)
    requires AllWordChars(target) && AllWordChars(p)
    requires after != [] && after[0] == '.'
    ensures WordRun(target + p + after) == |target| + |p|
  {
    var q := target + p;
    assert AllWordChars(q) by {
      forall i | 0 <= i < |q| ensures IsWordChar(q[i]) {
        if i >= |target| { assert q[i] == p[i - |target|]; }
      }
    }
    WordRunOfWord(q, after);
  }

  /** No position after the target and up to the `.` starts a `_dump_`. */
  lemma NoLaterDump(target: string, p: string, after: string, j: nat)
    requires |p| >= 2 && 'd' !in p[2..]
    requires after != [] && after[0] == '.'
    requires |target| < j <= |target| + |p|
    ensures !StartsWith((target + p + after)[j..], "_dump_")
  {
    var s := target + p + after;
    if |s[j..]| >= 6 {
      if j + 1 < |target| + |p| {
        var o := j + 1 - |target|;
        assert s[j..][1] == p[o] == p[2..][o - 2];
      } else if j + 1 == |target| + |p| {
        assert s[j..][1] == after[0];
      } else {
        assert s[j..][0] == after[0];
      }
    }
  }

  /** Shortening the group from `k` down to the target's length finds the tail first at the target's end. */
  lemma {:induction false} BacktrackToTarget(target: string, dump: nat, work: nat, ext: string, rest: string, k: nat)
    requires |target| > 0
    requires |target| <= k <= |target| + |DumpPart(dump, work)|
    ensures k <= |target + TailText(dump, work, ext, rest)|
    ensures LongestTarget(target + TailText(dump, work, ext, rest), ext, k) == Some(|target|)
    decreases k
  {
    var p := DumpPart(dump, work);
    var after := "." + ext + rest;
    var s := target + TailText(dump, work, ext, rest);
    assert s == target + p + after;
    if k == |target| {
      assert s[k..] == TailText(dump, work, ext, rest);
      TailRoundTrip(dump, work, ext, rest);
    } else {
      DumpPartWords(dump, work);
      NoLaterDump(target, p, after, k);
      BacktrackToTarget(target, dump, work, ext, rest, k - 1);
    }
  }

  /**
   * Whatever word characters the target holds, the backtracking `(\w+)` gives
   * back exactly the target the writer put in: no longer group can be followed
   * by `_dump_`, because the only `_dump_` after the target is the one right
   * after it.
   */
  lemma TargetRoundTrip(target: string, dump: nat, work: nat, ext: string, rest: string)
    requires |target| > 0 && AllWordChars(target)
    ensures MatchTarget(target + TailText(dump, work, ext, rest), ext) == Some(TargetTail(target, dump, work))
  {
    var p := DumpPart(dump, work);
    var after := "." + ext + rest;
    var s := target + TailText(dump, work, ext, rest);
    assert s == target + p + after;
    DumpPartWords(dump, work);
    WordsThenDot(target, p, after);
    BacktrackToTarget(target, dump, work, ext, rest, WordRun(s));
    assert s[|target|..] == TailText(dump, work, ext, rest) && s[..|target|] == target;
    TailRoundTrip(dump, work, ext, rest);
  }

  /** The numbers before the target read back as written. */
  lemma HeadRoundTrip(p: RunParams, r3: string)
    ensures MatchHead("_threads_" + NatToString(p.threads) + ("_coro_" + NatToString(p.coro)
                      + ("_shared_" + NatToString(p.shared) + ("_target_" + r3))))
         == Some(Head(p.threads, p.coro, p.shared, r3))
  {
    var r2 := "_shared_" + NatToString(p.shared) + ("_target_" + r3);
    var r1 := "_coro_" + NatToString(p.coro) + r2;
    FieldOfNumeral("_threads_", p.threads, r1);
    FieldOfNumeral("_coro_", p.coro, r2);
    FieldOfNumeral("_shared_", p.shared, "_target_" + r3);
    assert ("_target_" + r3)[..8] == "_target_";
  }

  /** The run file's base, followed by `.` and its extension, reads back as the fields written. */
  lemma RunFileRoundTrip(stamp: string, p: RunParams, target: string, ext: string, rest: string)
    requires StampShape(stamp)
    requires |target| > 0 && AllWordChars(target)
    ensures MatchRunFile(RunFileBase(stamp, p, target) + "." + ext + rest, ext)
         == Some(RunFileFields(StampText(stamp), p, target))
  {
    var r3 := target + TailText(p.dump, p.worktime, ext, rest);
    var r0 := "_threads_" + NatToString(p.threads) + ("_coro_" + NatToString(p.coro)
              + ("_shared_" + NatToString(p.shared) + ("_target_" + r3)));
    var s := RunFileBase(stamp, p, target) + "." + ext + rest;
    RunFileShape(stamp, p, target, ext, rest);
    assert s[..19] == stamp && s[19..] == r0;
    HeadRoundTrip(p, r3);
    TargetRoundTrip(target, p.dump, p.worktime, ext, rest);
  }

  /** `base + "." + ext` regrouped so that the `.` belongs to the extension, as the tools spell it. */
  lemma DotExtensionRegroup(base: string, ext: string)
    ensures base + "." + ext + "" == base + ("." + ext)
  {
  }

  /** The two extensions, written with and without the separating `.` apart. */
  lemma DotCsvAndDotUsage()
    ensures "." + "csv" == ".csv" && "." + "usage" == ".usage"
  {
  }

  lemma RunFileShape(stamp: string, p: RunParams, target: string, ext: string, rest: string)
    ensures RunFileBase(stamp, p, target) + "." + ext + rest
         == stamp + ("_threads_" + NatToString(p.threads) + ("_coro_" + NatToString(p.coro)
              + ("_shared_" + NatToString(p.shared) + ("_target_" + (target + TailText(p.dump, p.worktime, ext, rest))))))
  {
    Regroup(stamp, "_threads_", NatToString(p.threads), "_coro_", NatToString(p.coro), "_shared_", NatToString(p.shared),
            "_target_", target, DumpPart(p.dump, p.worktime), ".", ext, rest);
  }

  /** Thirteen pieces written one after the other, grouped from the left or from the right. */
  lemma Regroup(s0: string, l1: string, n1: string, l2: string, n2: string, l3: string, n3: string,
                l4: string, t: string, dp: string, dot: string, e: string, r: string)
    ensures s0 + l1 + n1 + l2 + n2 + l3 + n3 + l4 + t + dp + dot + e + r
         == s0 + (l1 + n1 + (l2 + n2 + (l3 + n3 + (l4 + (t + (dp + (dot + e + r)))))))
  {
  }

  /** `threads_(\d+)_coro_(\d+)_shared_(\d+)_dump_(\d+)_worktime_(\d+)` at the head of `s`. */
  function MatchRunToken(s: string): (r: Option<RunParams>)
    ensures r.Some? ==> StartsWith(s, "threads_")
  {
    var t :- Field(s, "threads_");
    var c :- Field(t.rest, "_coro_");
    var sh :- Field(c.rest, "_shared_");
    var d :- Field(sh.rest, "_dump_");
    var w :- Field(d.rest, "_worktime_");
    Some(RunParams(t.value, c.value, sh.value, d.value, w.value))
  }

  /** The token a run directory's name carries. */
  function RunToken(p: RunParams): string
  {
    "threads_" + NatToString(p.threads) + "_coro_" + NatToString(p.coro) + "_shared_" + NatToString(p.shared)
    + "_dump_" + NatToString(p.dump) + "_worktime_" + NatToString(p.worktime)
  }

  /**
   * `re.search` of the run token: the match at the first position, scanning
   * from the left, where one starts.
   */
  function SearchRunToken(s: string): Option<RunParams>
    decreases |s|
  {
    var m := MatchRunToken(s);
    if m.Some? then m
    else if s == [] then None
    else SearchRunToken(s[1..])
  }

  lemma RunTokenRoundTrip(p: RunParams, suffix: string)
    requires suffix == [] || !IsDigit(suffix[0])
    ensures MatchRunToken(RunToken(p) + suffix) == Some(p)
  {
    var r4 := "_worktime_" + NatToString(p.worktime) + suffix;
    var r3 := "_dump_" + NatToString(p.dump) + r4;
    var r2 := "_shared_" + NatToString(p.shared) + r3;
    var r1 := "_coro_" + NatToString(p.coro) + r2;
    var s := RunToken(p) + suffix;
    TokenRegroup("threads_", NatToString(p.threads), "_coro_", NatToString(p.coro), "_shared_", NatToString(p.shared),
                 "_dump_", NatToString(p.dump), "_worktime_", NatToString(p.worktime), suffix);
    FieldOfNumeral("threads_", p.threads, r1);
    FieldOfNumeral("_coro_", p.coro, r2);
    FieldOfNumeral("_shared_", p.shared, r3);
    FieldOfNumeral("_dump_", p.dump, r4);
    FieldOfNumeral("_worktime_", p.worktime, suffix);
    TokenFields(s, p, r1, r2, r3, r4, suffix);
  }

  /** The run token followed by a suffix, grouped from the right. */
  lemma TokenRegroup(l1: string, n1: string, l2: string, n2: string, l3: string, n3: string,
                     l4: string, n4: string, l5: string, n5: string, suffix: string)
    ensures l1 + n1 + l2 + n2 + l3 + n3 + l4 + n4 + l5 + n5 + suffix
         == l1 + n1 + (l2 + n2 + (l3 + n3 + (l4 + n4 + (l5 + n5 + suffix))))
  {
  }

  lemma TokenFields(s: string, p: RunParams, r1: string, r2: string, r3: string, r4: string, suffix: string)
    requires Field(s, "threads_") == Some(Numbered(p.threads, r1))
    requires Field(r1, "_coro_") == Some(Numbered(p.coro, r2))
    requires Field(r2, "_shared_") == Some(Numbered(p.shared, r3))
    requires Field(r3, "_dump_") == Some(Numbered(p.dump, r4))
    requires Field(r4, "_worktime_") == Some(Numbered(p.worktime, suffix))
    ensures MatchRunToken(s) == Some(p)
  {
  }

  /**
   * A directory name made of a prefix without `threads_`, the token and a
   * suffix that does not start with a digit yields the token's parameters:
   * no earlier match can start inside the prefix, not even one that runs into
   * the token, because no proper suffix of `threads_` is followed by `th`.
   */
  lemma SearchRunTokenRoundTrip(prefix: string, p: RunParams, suffix: string)
    requires !Contains(prefix, "threads_")
    requires suffix == [] || !IsDigit(suffix[0])
    ensures SearchRunToken(prefix + RunToken(p) + suffix) == Some(p)
  {
    RunTokenRoundTrip(p, suffix);
    TokenHead(p, suffix);
    SearchAfterPrefix(prefix, RunToken(p), suffix, p);
  }

  /** A match right after a prefix without `threads_` is what the search finds. */
  lemma SearchAfterPrefix(prefix: string, t: string, suffix: string, p: RunParams)
    requires !Contains(prefix, "threads_")
    requires t + suffix != [] && (t + suffix)[0] == 't'
    requires MatchRunToken(t + suffix) == Some(p)
    ensures SearchRunToken(prefix + t + suffix) == Some(p)
  {
    var x := t + suffix;
    assert prefix + t + suffix == prefix + x;
    SearchSkipsPrefix(prefix, x);
    SearchAtMatch(x);
  }

  lemma TokenHead(p: RunParams, suffix: string)
    ensures RunToken(p) + suffix != [] && (RunToken(p) + suffix)[0] == 't'
  {
    assert (RunToken(p) + suffix)[0] == RunToken(p)[0] == "threads_"[0];
  }

  /** The search stops at the first position, when a token starts there. */
  lemma SearchAtMatch(x: string)
    requires MatchRunToken(x).Some?
    ensures SearchRunToken(x) == MatchRunToken(x)
  {
  }

  /** The search moves past a prefix without `threads_` when what follows starts with `t`. */
  lemma {:induction false} SearchSkipsPrefix(prefix: string, x: string)
    requires !Contains(prefix, "threads_")
    requires x != [] && x[0] == 't'
    ensures SearchRunToken(prefix + x) == SearchRunToken(x)
    decreases |prefix|
  {
    if prefix == [] {
      assert prefix + x == x;
    } else {
      NoStraddle(prefix, x);
      assert (prefix + x)[1..] == prefix[1..] + x;
      SearchSkipsPrefix(prefix[1..], x);
    }
  }

  /** No `threads_` starts inside a prefix that lacks one, when what follows starts with `t`. */
  lemma NoStraddle(prefix: string, x: string)
    requires prefix != [] && !Contains(prefix, "threads_")
    requires x != [] && x[0] == 't'
    ensures !StartsWith(prefix + x, "threads_")
  {
    var s := prefix + x;
    if |prefix| >= 8 {
      assert s[..8] == prefix[..8];
    } else {
      var j := |prefix|;
      assert s[j] == 't';

    }
  }

  /** The tag of each figure in a resource-usage block. */
  const WallLabel: string := "Wall Time (\U{03BC}s): "
  const UserLabel: string := "User Time (\U{03BC}s): "
  const SystemLabel: string := "System Time (\U{03BC}s): "

  /**
   * `re.search(tag + r'(\d+)', text)`: the number after the leftmost
   * occurrence of `tag` that is followed by a digit.
   */
  function FindLabelledNumber(s: string, tag: string): Option<nat>
    decreases |s|
  {
    if StartsWith(s, tag) && Number(s[|tag|..]).Some? then Some(Number(s[|tag|..]).value.value)
    else if s == [] then None
    else FindLabelledNumber(s[1..], tag)
  }

  /** Text without the tag's first character cannot hold a match, so the search goes on after it. */
  lemma {:induction false} FindSkipsText(p: string, s: string, tag: string)
    requires |tag| > 0 && tag[0] !in p
    ensures FindLabelledNumber(p + s, tag) == FindLabelledNumber(s, tag)
    decreases |p|
  {
    if p != [] {
      assert (p + s)[0] == p[0];
      assert !StartsWith(p + s, tag);
      assert (p + s)[1..] == p[1..] + s;
      FindSkipsText(p[1..], s, tag);
    } else {
      assert p + s == s;
    }
  }

  /** The tag followed by a numeral: the search reads that numeral. */
  lemma FindAtLabel(tag: string, n: nat, rest: string)
    requires rest == [] || !IsDigit(rest[0])
    ensures FindLabelledNumber(tag + NatToString(n) + rest, tag) == Some(n)
  {
    var s := tag + NatToString(n) + rest;
    assert s[..|tag|] == tag && s[|tag|..] == NatToString(n) + rest;
    NumberOfNumeral(n, rest);
  }

  /** Every character of a run file's base is a word character or `-`; in particular it has no `/` and no `.`. */
  lemma RunFileBaseChars(stamp: string, p: RunParams, target: string)
    requires StampShape(stamp)
    requires AllWordChars(target)
    ensures '/' !in RunFileBase(stamp, p, target) && '.' !in RunFileBase(stamp, p, target)
  {
    DumpPartWords(p.dump, p.worktime);
    WordsPlain(target);
    WordsPlain(DumpPart(p.dump, p.worktime));
    WordsPlain(NatToString(p.threads));
    WordsPlain(NatToString(p.coro));
    WordsPlain(NatToString(p.shared));
    forall i | 0 <= i < 19 ensures stamp[i] != '/' && stamp[i] != '.' {
      if i < 4 { assert IsDigit(stamp[0..4][i]); }
      else if 4 < i < 7 { assert IsDigit(stamp[5..7][i - 5]); }
      else if 7 < i < 10 { assert IsDigit(stamp[8..10][i - 8]); }
      else if 10 < i < 13 { assert IsDigit(stamp[11..13][i - 11]); }
      else if 13 < i < 16 { assert IsDigit(stamp[14..16][i - 14]); }
      else if 16 < i { assert IsDigit(stamp[17..19][i - 17]); }
    }
  }

  /** Word characters include neither `/` nor `.`. */
  lemma WordsPlain(w: string)
    requires AllWordChars(w) || AllDigits(w)
    ensures '/' !in w && '.' !in w
  {
    forall i | 0 <= i < |w| ensures w[i] != '/' && w[i] != '.' {
      assert IsWordChar(w[i]) || IsDigit(w[i]);
    }
  }

  /** The title every plotting tool gives a target: `std::mutex` for `m` and `coroMutex` for anything else. */
  function TargetLabel(target: string): (r: string)
    ensures r == "std::mutex" <==> target == "m"
    ensures r == "std::mutex" || r == "coroMutex"
  {
    if target == "m" then "std::mutex" else "coroMutex"
  }

  /** The variant a comparison pairs a target with: `cm` with `m` and back; no pair for any other target. */
  function PairTarget(target: string): (r: Option<string>)
    ensures r.Some? <==> target == "m" || target == "cm"
    ensures r.Some? ==> (r.value == "cm" <==> target == "m") && (r.value == "m" <==> target == "cm")
  {
    if target == "m" then Some("cm") else if target == "cm" then Some("m") else None
  }

  /** The index of the first entry of a directory listing that `isPair` accepts, in listing order. */
  function FirstEntry(listing: seq<string>, isPair: string -> bool): (r: Option<nat>)
    ensures r.Some? ==> r.value < |listing| && isPair(listing[r.value])
    ensures r.Some? ==> forall j :: 0 <= j < r.value ==> !isPair(listing[j])
    ensures r.None? ==> forall j :: 0 <= j < |listing| ==> !isPair(listing[j])
    decreases |listing|
  {
    if listing == [] then None
    else if isPair(listing[0]) then Some(0)
    else
      match FirstEntry(listing[1..], isPair)
      case None => None
      case Some(i) => Some(i + 1)
  }

  /** The loop over a directory listing that returns at the first entry `isPair` accepts. */
  method FindFirstEntry(listing: seq<string>, isPair: string -> bool) returns (r: Option<nat>)
    ensures r == FirstEntry(listing, isPair)
  {
    for i := 0 to |listing|
      invariant forall j :: 0 <= j < i ==> !isPair(listing[j])
    {
      if isPair(listing[i]) {
        FirstEntryAt(listing, isPair, i);
        return Some(i);
      }
    }
    return None;
  }

  /** An entry that the test accepts, with none accepted before it, is the first entry. */
  lemma FirstEntryAt(listing: seq<string>, isPair: string -> bool, i: nat)
    requires i < |listing| && isPair(listing[i])
    requires forall j :: 0 <= j < i ==> !isPair(listing[j])
    ensures FirstEntry(listing, isPair) == Some(i)
  {
  }
}
