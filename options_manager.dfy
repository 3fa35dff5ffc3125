/**
 * `optionsManager`: typed getters over a parsed `optionsParser`. Each getter
 * returns the caller's default for an option that was not given, converts the
 * recorded text otherwise, and raises (here: `Err` with the message) on an
 * unregistered name or a text it cannot convert.
 */
module OptionsManager {
  import opened Wrappers
  import opened Text
  import opened OptionsParser

  /** The range of a 32-bit `int`, the result type of `std::stoi`. */
  const IntMin: int := -0x8000_0000
  const IntMax: int := 0x7FFF_FFFF

  /** The spellings of a boolean, after lower-casing. */
  function BoolWord(lower: string): (r: Option<bool>)
    ensures r == Some(true) <==> lower in ["true", "1", "yes"]
    ensures r == Some(false) <==> lower in ["false", "0", "no"]
  {
    if lower == "true" || lower == "1" || lower == "yes" then Some(true)
    else if lower == "false" || lower == "0" || lower == "no" then Some(false)
    else None
  }

  /**
   * `getBool`: the default when the option was not given, true for a bare
   * flag (empty value), else the value read case-insensitively.
   */
  function GetBool(p: OptionsParser, name: string, defaultValue: bool): (r: Result<bool, string>)
    reads p
    ensures name !in p.options ==> r == Err("Unknown option: " + name)
    ensures name in p.options && !p.options[name].isSet ==> r == Ok(defaultValue)
    ensures name in p.options && p.options[name].isSet ==>
      var value := p.options[name].value;
      && (r == Ok(true) <==> value == "" || Lower(value) in ["true", "1", "yes"])
      && (r == Ok(false) <==> value != "" && Lower(value) in ["false", "0", "no"])
      && (r.Err? <==> r == Err("Invalid boolean value for option " + name + ": " + value))
  {
    var isSet := p.IsSet(name);
    if isSet.Err? then Err(isSet.error)
    else if !isSet.value then Ok(defaultValue)
    else
      var value := p.GetValue(name).value;
      if value == "" then Ok(true)
      else
        match BoolWord(Lower(value))
        case Some(b) => Ok(b)
        case None => Err("Invalid boolean value for option " + name + ": " + value)
  }

  /** Spellings that differ only in the case of ASCII letters read as the same boolean. */
  lemma BoolIgnoresCase(p: OptionsParser, q: OptionsParser, name: string, defaultValue: bool)
    requires name in p.options && name in q.options
    requires p.options[name].isSet && q.options[name].isSet
    requires Lower(p.options[name].value) == Lower(q.options[name].value)
    ensures GetBool(p, name, defaultValue).Ok? ==> GetBool(p, name, defaultValue) == GetBool(q, name, defaultValue)
  {
    var v := p.options[name].value;
    var w := q.options[name].value;
    if v == "" {
      assert |Lower(w)| == 0;
    } else {
      assert |Lower(w)| == |Lower(v)|;
    }
  }

  /** C's `isspace` in the C locale. */
  predicate IsSpace(c: char)
  {
    c == ' ' || c == '\t' || c == '\n' || c == '\U{000B}' || c == '\U{000C}' || c == '\r'
  }

  /** The number of white-space characters at the head of `s`. */
  function SpaceRun(s: string): (k: nat)
    ensures k <= |s|
    ensures k == |s| || !IsSpace(s[k])
    ensures forall i :: 0 <= i < k ==> IsSpace(s[i])
    decreases |s|
  {
    if s == [] || !IsSpace(s[0]) then 0 else 1 + SpaceRun(s[1..])
  }

  /** The digits after an optional sign, read as a signed number. */
  function SignedNumber(t: string): Option<int>
  {
    var neg := t != [] && t[0] == '-';
    var u := if t != [] && (t[0] == '-' || t[0] == '+') then t[1..] else t;
    var d := DigitRun(u);
    if d == 0 then None
    else
      var v: int := ParseDigits(u[..d]);
      Some(if neg then -v else v)
  }

  /**
   * `std::stoi` in base 10: white space, an optional sign and at least one
   * digit, with whatever follows ignored; no digits, or a value outside `int`,
   * is an error.
   */
  function Stoi(s: string): (r: Option<int>)
    ensures r.Some? ==> IntMin <= r.value <= IntMax
  {
    var v :- SignedNumber(s[SpaceRun(s)..]);
    if IntMin <= v <= IntMax then Some(v) else None
  }

  /** Leading white space does not change what `std::stoi` reads. */
  lemma {:induction false} StoiSkipsSpace(sp: string, s: string)
    requires forall i :: 0 <= i < |sp| ==> IsSpace(sp[i])
    ensures Stoi(sp + s) == Stoi(s)
    decreases |sp|
  {
    if sp != [] {
      assert (sp + s)[1..] == sp[1..] + s;
      StoiSkipsSpace(sp[1..], s);
      SpaceRunStep(sp + s);
    } else {
      assert sp + s == s;
    }
  }

  lemma SpaceRunStep(s: string)
    requires s != [] && IsSpace(s[0])
    ensures s[SpaceRun(s)..] == s[1..][SpaceRun(s[1..])..]
  {
  }

  /**
   * An `int` written in decimal, followed by anything that is not a digit,
   * reads back as that `int`.
   */
  lemma StoiRoundTrip(i: int, rest: string)
    requires IntMin <= i <= IntMax
    requires rest == [] || !IsDigit(rest[0])
    ensures Stoi(IntToString(i) + rest) == Some(i)
  {
    var s := IntToString(i) + rest;
    SignedNumeral(i, rest);
    assert !IsSpace(s[0]) by {
      if i >= 0 { assert s[0] == NatToString(i)[0]; }
    }
  }

  /** A signed decimal numeral followed by a non-digit reads back as its value. */
  lemma SignedNumeral(i: int, rest: string)
    requires rest == [] || !IsDigit(rest[0])
    ensures SignedNumber(IntToString(i) + rest) == Some(i)
  {
    if i < 0 {
      NegativeNumeral(-i, rest);
    } else {
      UnsignedNumeral(i, rest);
    }
  }

  lemma NegativeNumeral(n: nat, rest: string)
    requires n > 0
    requires rest == [] || !IsDigit(rest[0])
    ensures SignedNumber("-" + NatToString(n) + rest) == Some(-(n as int))
  {
    var u := NatToString(n) + rest;
    UnsignedNumeral(n, rest);
    assert ("-" + NatToString(n) + rest)[1..] == u;
  }

  lemma UnsignedNumeral(n: nat, rest: string)
    requires rest == [] || !IsDigit(rest[0])
    ensures var u := NatToString(n) + rest;
      u[0] != '-' && u[0] != '+' && DigitRun(u) == |NatToString(n)| && ParseDigits(u[..DigitRun(u)]) == n
  {
    var d := NatToString(n);
    NatToStringRoundTrip(n);
    DigitRunOfDigits(d, rest);
    assert (d + rest)[..|d|] == d;
    assert (d + rest)[0] == d[0];
  }

  /**
   * `getInt`: the default when the option was not given, else `std::stoi` of
   * the value; a failed conversion is raised again naming option and value.
   */
  function GetInt(p: OptionsParser, name: string, defaultValue: int): (r: Result<int, string>)
    reads p
    ensures name !in p.options ==> r == Err("Unknown option: " + name)
    ensures name in p.options && !p.options[name].isSet ==> r == Ok(defaultValue)
    ensures name in p.options && p.options[name].isSet ==>
      var value := p.options[name].value;
      && (r.Ok? <==> Stoi(value).Some?)
      && (r.Ok? ==> r.value == Stoi(value).value && IntMin <= r.value <= IntMax)
      && (r.Err? ==> r.error == "Invalid integer value for option " + name + ": " + value)
  {
    var isSet := p.IsSet(name);
    if isSet.Err? then Err(isSet.error)
    else if !isSet.value then Ok(defaultValue)
    else
      var value := p.GetValue(name).value;
      match Stoi(value)
      case Some(v) => Ok(v)
      case None => Err("Invalid integer value for option " + name + ": " + value)
  }

  /** `getString`: the default when the option was not given, else its value, even an empty one. */
  function GetString(p: OptionsParser, name: string, defaultValue: string): (r: Result<string, string>)
    reads p
    ensures name !in p.options ==> r == Err("Unknown option: " + name)
    ensures name in p.options ==> r == Ok(if p.options[name].isSet then p.options[name].value else defaultValue)
  {
    var isSet := p.IsSet(name);
    if isSet.Err? then Err(isSet.error)
    else if !isSet.value then Ok(defaultValue)
    else p.GetValue(name)
  }

  /** `isSet`, passed on to the parser, with its error for an unregistered name. */
  function IsSet(p: OptionsParser, name: string): (r: Result<bool, string>)
    reads p
    ensures r.Ok? <==> name in p.options
    ensures r.Ok? ==> r.value == p.options[name].isSet
  {
    p.IsSet(name)
  }

  /** `getPositionalArgs`, passed on to the parser. */
  function GetPositionalArgs(p: OptionsParser): (r: seq<string>)
    reads p
    ensures r == p.positionalArgs
  {
    p.GetPositionalArgs()
  }
}
