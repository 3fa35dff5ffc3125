/**
 * Character classes, decimal numerals and the few string operations the
 * benchmark's writers (C++ stream output) and readers (Python `re`, `str`)
 * rely on. Character classes are the ASCII ones: `\d` is `0`-`9` and `\w` is
 * letters, digits and `_`.
 */
module Text {
  import opened Wrappers

  predicate IsDigit(c: char) { '0' <= c <= '9' }

  /** Python's `\w` restricted to ASCII. */
  predicate IsWordChar(c: char) { IsDigit(c) || 'a' <= c <= 'z' || 'A' <= c <= 'Z' || c == '_' }

  predicate AllDigits(s: string) { forall i :: 0 <= i < |s| ==> IsDigit(s[i]) }

  predicate AllWordChars(s: string) { forall i :: 0 <= i < |s| ==> IsWordChar(s[i]) }

  function DigitChar(d: nat): (c: char)
    requires d < 10
    ensures IsDigit(c)
  {
    ('0' as int + d) as char
  }

  function DigitValue(c: char): (d: nat)
    requires IsDigit(c)
    ensures d < 10
  {
    c as int - '0' as int
  }

  /** The value of a numeral, as Python's `int()` reads a `\d+` group. */
  function ParseDigits(s: string): nat
    requires AllDigits(s)
    decreases |s|
  {
    if s == [] then 0 else ParseDigits(s[..|s| - 1]) * 10 + DigitValue(s[|s| - 1])
  }

  /** The decimal numeral of `n`, as `operator<<` and Python's `str()` write it. */
  function NatToString(n: nat): (r: string)
    ensures |r| > 0 && AllDigits(r)
    decreases n
  {
    if n < 10 then [DigitChar(n)] else NatToString(n / 10) + [DigitChar(n % 10)]
  }

  lemma {:induction false} NatToStringRoundTrip(n: nat)
    ensures ParseDigits(NatToString(n)) == n
  {
    var s := NatToString(n);
    if n >= 10 {
      assert s[..|s| - 1] == NatToString(n / 10);
      NatToStringRoundTrip(n / 10);
    }
  }

  /** A number below 10^w has at most `w` digits. */
  lemma {:induction false} NumeralAtMost(n: nat, w: nat)
    requires w >= 1 && n < Pow10(w)
    ensures |NatToString(n)| <= w
  {
    if n >= 10 {
      assert w != 1;
      NumeralAtMost(n / 10, w - 1);
    }
  }

  /** A number of at least 10^w has more than `w` digits. */
  lemma {:induction false} NumeralMoreThan(n: nat, w: nat)
    requires Pow10(w) <= n
    ensures |NatToString(n)| > w
  {
    if w > 0 {
      NumeralMoreThan(n / 10, w - 1);
    }
  }

  function Pow10(w: nat): (p: nat)
    ensures p >= 1
  {
    if w == 0 then 1 else 10 * Pow10(w - 1)
  }

  lemma {:induction false} Pow10Grows(w: nat, v: nat)
    requires v <= w
    ensures Pow10(v) <= Pow10(w)
  {
    if v < w { Pow10Grows(w - 1, v); }
  }

  function Zeros(k: nat): (r: string)
    ensures |r| == k && AllDigits(r)
    ensures forall i :: 0 <= i < k ==> r[i] == '0'
  {
    seq(k, _ => '0')
  }

  /** `std::setfill('0') << std::setw(w)`: left-pad with zeros to at least `w` characters. */
  function ZeroPad(s: string, w: nat): (r: string)
    ensures |r| == if |s| < w then w else |s|
    ensures AllDigits(s) ==> AllDigits(r)
  {
    (if |s| < w then Zeros(w - |s|) else []) + s
  }

  lemma {:induction false} LeadingZerosIgnored(k: nat, s: string)
    requires AllDigits(s)
    ensures AllDigits(Zeros(k) + s) && ParseDigits(Zeros(k) + s) == ParseDigits(s)
    decreases |s|
  {
    var z := Zeros(k) + s;
    assert AllDigits(z);
    if s == [] {
      assert z == Zeros(k);
      AllZerosIsZero(k);
    } else {
      assert z[..|z| - 1] == Zeros(k) + s[..|s| - 1];
      LeadingZerosIgnored(k, s[..|s| - 1]);
    }
  }

  lemma {:induction false} AllZerosIsZero(k: nat)
    ensures ParseDigits(Zeros(k)) == 0
  {
    if k > 0 {
      assert Zeros(k)[..k - 1] == Zeros(k - 1);
      AllZerosIsZero(k - 1);
    }
  }

  /** Reading back a zero-padded numeral gives the number that was padded. */
  lemma ZeroPadRoundTrip(n: nat, w: nat)
    ensures AllDigits(ZeroPad(NatToString(n), w))
    ensures ParseDigits(ZeroPad(NatToString(n), w)) == n
  {
    var s := NatToString(n);
    NatToStringRoundTrip(n);
    if |s| < w {
      LeadingZerosIgnored(w - |s|, s);
    } else {
      assert ZeroPad(s, w) == s;
    }
  }

  /** The decimal text of a signed integer as `operator<<` writes an `int64_t`. */
  function IntToString(i: int): (r: string)
    ensures |r| > 0
  {
    if i < 0 then "-" + NatToString(-i) else NatToString(i)
  }

  /** An integer field: an optional `-` and one or more digits. */
  function ParseInteger(s: string): Option<int>
  {
    if |s| > 1 && s[0] == '-' && AllDigits(s[1..]) then Some(-(ParseDigits(s[1..]) as int))
    else if |s| > 0 && AllDigits(s) then Some(ParseDigits(s))
    else None
  }

  lemma IntToStringRoundTrip(i: int)
    ensures ParseInteger(IntToString(i)) == Some(i)
  {
    NatToStringRoundTrip(if i < 0 then -i else i);
    if i < 0 {
      assert IntToString(i)[1..] == NatToString(-i);
    }
  }

  predicate StartsWith(s: string, prefix: string) { |prefix| <= |s| && s[..|prefix|] == prefix }

  predicate EndsWith(s: string, suffix: string) { |suffix| <= |s| && s[|s| - |suffix|..] == suffix }

  /** Python's `t in s`. */
  predicate Contains(s: string, t: string)
    decreases |s|
  {
    StartsWith(s, t) || (s != [] && Contains(s[1..], t))
  }

  /** The fields written with `sep` between consecutive ones. */
  function Join(parts: seq<string>, sep: char): string
    decreases |parts|
  {
    if |parts| == 0 then "" else if |parts| == 1 then parts[0] else parts[0] + [sep] + Join(parts[1..], sep)
  }

  /** Splits at every `sep`; always at least one field. */
  function Split(s: string, sep: char): (r: seq<string>)
    ensures |r| > 0
    decreases |s|
  {
    if s == [] then [""]
    else
      var rest := Split(s[1..], sep);
      if s[0] == sep then [""] + rest else [[s[0]] + rest[0]] + rest[1..]
  }

  lemma {:induction false} SplitNoSep(p: string, sep: char)
    requires sep !in p
    ensures Split(p, sep) == [p]
    decreases |p|
  {
    if p != [] {
      SplitNoSep(p[1..], sep);
      assert [p[0]] + p[1..] == p;
    }
  }

  lemma {:induction false} SplitAfterField(p: string, sep: char, rest: string)
    requires sep !in p
    ensures Split(p + [sep] + rest, sep) == [p] + Split(rest, sep)
    decreases |p|
  {
    if p == [] {
      assert p + [sep] + rest == [sep] + rest;
      assert ([sep] + rest)[1..] == rest;
    } else {
      var s := p + [sep] + rest;
      assert s[1..] == p[1..] + [sep] + rest;
      SplitAfterField(p[1..], sep, rest);
      assert [p[0]] + p[1..] == p;
    }
  }

  /** Splitting the joined fields gives the fields back when none contains the separator. */
  lemma {:induction false} SplitJoin(parts: seq<string>, sep: char)
    requires |parts| > 0
    requires forall i :: 0 <= i < |parts| ==> sep !in parts[i]
    ensures Split(Join(parts, sep), sep) == parts
    decreases |parts|
  {
    if |parts| == 1 {
      SplitNoSep(parts[0], sep);
    } else {
      SplitJoin(parts[1..], sep);
      SplitAfterField(parts[0], sep, Join(parts[1..], sep));
      assert [parts[0]] + parts[1..] == parts;
    }
  }

  lemma {:induction false} JoinAppend(parts: seq<string>, last: string, sep: char)
    requires |parts| > 0
    ensures Join(parts + [last], sep) == Join(parts, sep) + [sep] + last
    decreases |parts|
  {
    if |parts| == 1 {
      assert (parts + [last])[1..] == [last];
    } else {
      assert (parts + [last])[1..] == parts[1..] + [last];
      JoinAppend(parts[1..], last, sep);
    }
  }

  lemma JoinPrepend(first: string, parts: seq<string>, sep: char)
    requires |parts| > 0
    ensures Join([first] + parts, sep) == first + [sep] + Join(parts, sep)
  {
    assert ([first] + parts)[1..] == parts;
  }

  /**
   * Python's `s.replace(pat, rep)`: every non-overlapping occurrence of `pat`,
   * scanning left to right, is replaced.
   */
  function ReplaceAll(s: string, pat: string, rep: string): string
    requires |pat| > 0
    decreases |s|
  {
    if |s| < |pat| then s
    else if s[..|pat|] == pat then rep + ReplaceAll(s[|pat|..], pat, rep)
    else [s[0]] + ReplaceAll(s[1..], pat, rep)
  }

  /** Text without the first character of `t` does not contain `t`. */
  lemma {:induction false} ContainsNeedsHead(s: string, t: string)
    requires |t| > 0 && t[0] !in s
    ensures !Contains(s, t)
    decreases |s|
  {
    if s != [] {
      assert s[0] != t[0];
      ContainsNeedsHead(s[1..], t);
    }
  }

  /** Text that does not contain `pat` comes out of the replacement unchanged. */
  lemma {:induction false} ReplaceAllWithout(s: string, pat: string, rep: string)
    requires |pat| > 0 && !Contains(s, pat)
    ensures ReplaceAll(s, pat, rep) == s
    decreases |s|
  {
    if |s| >= |pat| {
      assert !StartsWith(s, pat);
      ReplaceAllWithout(s[1..], pat, rep);
      assert s == [s[0]] + s[1..];
    }
  }

  /**
   * When the first character of `pat` occurs nowhere else in it, no
   * occurrence can overlap the one at the very end, so that one is always
   * replaced and the text before it is replaced on its own.
   */
  lemma {:induction false} ReplaceAllAtEnd(base: string, pat: string, rep: string)
    requires |pat| > 0 && pat[0] !in pat[1..]
    ensures ReplaceAll(base + pat, pat, rep) == ReplaceAll(base, pat, rep) + rep
    decreases |base|
  {
    var s := base + pat;
    if 0 < |base| < |pat| {
      // the `pat[0]` that starts the final occurrence sits where a straddling one needs `pat[|base|]`
      assert pat[|base|] == pat[1..][|base| - 1];
      assert s[..|pat|][|base|] != pat[|base|];
    }
    if base == [] {
      assert s == pat && s[|pat|..] == [];
    } else if s[..|pat|] == pat {
      assert base[..|pat|] == pat;
      assert s[|pat|..] == base[|pat|..] + pat;
      ReplaceAllAtEnd(base[|pat|..], pat, rep);
    } else {
      assert s[1..] == base[1..] + pat;
      ReplaceAllAtEnd(base[1..], pat, rep);
      if |base| >= |pat| {
        assert base[..|pat|] == s[..|pat|];
      }
    }
  }

  /** `::tolower` in the C locale: only `A`-`Z` change. */
  function ToLowerAscii(c: char): char
  {
    if 'A' <= c <= 'Z' then (c as int - 'A' as int + 'a' as int) as char else c
  }

  function Lower(s: string): (r: string)
    ensures |r| == |s|
    ensures forall i :: 0 <= i < |s| ==> r[i] == ToLowerAscii(s[i])
  {
    seq(|s|, i requires 0 <= i < |s| => ToLowerAscii(s[i]))
  }

  /** The length of the longest run of digits at the head of `s` (a greedy `\d+`, or zero). */
  function DigitRun(s: string): (k: nat)
    ensures k <= |s| && AllDigits(s[..k])
    ensures k == |s| || !IsDigit(s[k])
    decreases |s|
  {
    if s == [] || !IsDigit(s[0]) then 0 else 1 + DigitRun(s[1..])
  }

  lemma {:induction false} DigitRunOfDigits(d: string, rest: string)
    requires AllDigits(d)
    requires rest == [] || !IsDigit(rest[0])
    ensures DigitRun(d + rest) == |d|
    decreases |d|
  {
    if d != [] {
      assert (d + rest)[1..] == d[1..] + rest;
      DigitRunOfDigits(d[1..], rest);
    }
  }

  /** The length of the longest run of word characters at the head of `s` (a greedy `\w+`). */
  function WordRun(s: string): (k: nat)
    ensures k <= |s| && AllWordChars(s[..k])
    ensures k == |s| || !IsWordChar(s[k])
    decreases |s|
  {
    if s == [] || !IsWordChar(s[0]) then 0 else 1 + WordRun(s[1..])
  }

  lemma {:induction false} WordRunOfWord(w: string, rest: string)
    requires AllWordChars(w)
    requires rest == [] || !IsWordChar(rest[0])
    ensures WordRun(w + rest) == |w|
    decreases |w|
  {
    if w != [] {
      assert (w + rest)[1..] == w[1..] + rest;
      WordRunOfWord(w[1..], rest);
    }
  }
}
