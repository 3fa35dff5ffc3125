/**
 * `optionsParser`: a registry of named options with optional one-character
 * aliases, and a scan over `argv` that marks options set, records their
 * values and collects positional arguments.
 *
 * The scan stops where the C++ code leaves `parse`: at a literal `--help`
 * (which prints the help text and exits with status 0) and at the first error
 * (an exception). Its outcome says which; the state holds every change made
 * before that point, as the C++ object does.
 */
module OptionsParser {
  import opened Wrappers
  import opened Text

  /** What the registry keeps per option. */
  datatype OptionInfo = OptionInfo(shortName: char, help: string, requiresValue: bool, isSet: bool, value: string)

  /** A value-initialised `optionInfo`, which `std::map::operator[]` inserts for a missing name. */
  const DefaultInfo := OptionInfo('\0', "", false, false, "")

  /** How a scan of `argv` ended. */
  datatype ParseOutcome = Completed | HelpRequested | Failed(message: string)

  /** The part of the parser a scan changes. */
  datatype ParseState = ParseState(options: map<string, OptionInfo>, positional: seq<string>)

  /** `std::string::operator[]`: the character at `k`, and `'\0'` at the end of the string. */
  function CharAt(s: string, k: nat): char
  {
    if k < |s| then s[k] else '\0'
  }

  /** `options[name]`: the entry, or the default one when there is none. */
  function Entry(options: map<string, OptionInfo>, name: string): OptionInfo
  {
    if name in options then options[name] else DefaultInfo
  }

  /** What one argument does to the scan: go on at `next` with a new state, or stop. */
  datatype Step = Continue(st: ParseState, next: nat) | Stop(outcome: ParseOutcome)

  /** `options[name]` marked set, with `value` when one is given. */
  function MarkSet(st: ParseState, name: string, value: Option<string>): ParseState
  {
    var info := Entry(st.options, name);
    st.(options := st.options[name := if value.Some? then info.(value := value.value, isSet := true) else info.(isSet := true)])
  }

  /** One pass of the loop body on `argv[i]`; `shorts` maps each alias to its option's name. */
  function StepAt(st: ParseState, shorts: map<char, string>, argv: seq<string>, i: nat): (r: Step)
    requires i < |argv|
    ensures r.Continue? ==> i < r.next <= |argv|
  {
    var arg := argv[i];
    if arg == "--help" then Stop(HelpRequested)
    else if StartsWith(arg, "--") then
      var name := arg[2..];
      if name !in st.options then Stop(Failed("Unknown option: " + arg))
      else if st.options[name].requiresValue then
        if i + 1 >= |argv| then Stop(Failed("Option --" + name + " requires a value"))
        else Continue(MarkSet(st, name, Some(argv[i + 1])), i + 2)
      else Continue(MarkSet(st, name, None), i + 1)
    else if CharAt(arg, 0) == '-' then
      var c := CharAt(arg, 1);
      if c !in shorts then Stop(Failed("Unknown option: " + arg))
      else
        var name := shorts[c];
        if Entry(st.options, name).requiresValue then
          if |arg| > 2 then Continue(MarkSet(st, name, Some(arg[2..])), i + 1)
          else if i + 1 >= |argv| then Stop(Failed("Option -" + [c] + " requires a value"))
          else Continue(MarkSet(st, name, Some(argv[i + 1])), i + 2)
        else Continue(MarkSet(st, name, None), i + 1)
    else Continue(st.(positional := st.positional + [arg]), i + 1)
  }

  /** The scan of `argv` from index `i` on: the state it leaves and how it ended. */
  function ParseFrom(st: ParseState, shorts: map<char, string>, argv: seq<string>, i: nat): (ParseState, ParseOutcome)
    decreases |argv| - i
  {
    if i >= |argv| then (st, Completed)
    else
      match StepAt(st, shorts, argv, i)
      case Stop(outcome) => (st, outcome)
      case Continue(next, j) => ParseFrom(next, shorts, argv, j)
  }

  class OptionsParser {
    var programName: string
    var options: map<string, OptionInfo>
    var shortOptions: map<char, string>
    var positionalArgs: seq<string>

    /** Every alias names a registered option, and `'\0'` (no alias) is never an alias. */
    ghost predicate Valid()
      reads this
    {
      '\0' !in shortOptions && forall c :: c in shortOptions ==> shortOptions[c] in options
    }

    constructor ()
      ensures Valid()
      ensures programName == "" && options == map[] && shortOptions == map[] && positionalArgs == []
    {
      programName := "";
      options := map[];
      shortOptions := map[];
      positionalArgs := [];
    }

    /**
     * Registers `name`, replacing any earlier entry of that name, as not set
     * and with no value; the alias is recorded only when there is one.
     */
    method AddOption(name: string, shortName: char, help: string, requiresValue: bool)
      requires Valid()
      modifies this`options, this`shortOptions
      ensures Valid()
      ensures options == old(options)[name := OptionInfo(shortName, help, requiresValue, false, "")]
      ensures shortOptions == if shortName != '\0' then old(shortOptions)[shortName := name] else old(shortOptions)
    {
      options := options[name := OptionInfo(shortName, help, requiresValue, false, "")];
      if shortName != '\0' {
        shortOptions := shortOptions[shortName := name];
      }
    }

    /**
     * Takes `argv[0]` as the program name and scans the rest, as `ParseFrom`
     * describes; the aliases do not change.
     */
    method Parse(argv: seq<string>) returns (outcome: ParseOutcome)
      requires Valid()
      modifies this`programName, this`options, this`positionalArgs
      ensures Valid()
      ensures programName == if |argv| > 0 then argv[0] else old(programName)
      ensures (ParseState(options, positionalArgs), outcome)
           == ParseFrom(ParseState(old(options), old(positionalArgs)), shortOptions, argv, 1)
    {
      if |argv| > 0 {
        programName := argv[0];
      }
      ghost var goal := ParseFrom(ParseState(options, positionalArgs), shortOptions, argv, 1);
      var i := 1;
      while i < |argv|
        invariant i >= 1
        invariant Valid()
        invariant programName == if |argv| > 0 then argv[0] else old(programName)
        invariant ParseFrom(ParseState(options, positionalArgs), shortOptions, argv, i) == goal
        decreases |argv| - i
      {
        var arg := argv[i];
        if arg == "--help" {
          return HelpRequested;
        }
        if StartsWith(arg, "--") {
          var optionName := arg[2..];
          if optionName !in options {
            return Failed("Unknown option: " + arg);
          }
          var info := options[optionName];
          if info.requiresValue {
            if i + 1 >= |argv| {
              return Failed("Option --" + optionName + " requires a value");
            }
            i := i + 1;
            info := info.(value := argv[i]);
          }
          options := options[optionName := info.(isSet := true)];
        } else if CharAt(arg, 0) == '-' {
          var shortName := CharAt(arg, 1);
          if shortName !in shortOptions {
            return Failed("Unknown option: " + arg);
          }
          var name := shortOptions[shortName];
          var option := Entry(options, name);
          if option.requiresValue {
            if |arg| > 2 {
              option := option.(value := arg[2..]);
            } else {
              if i + 1 >= |argv| {
                return Failed("Option -" + [shortName] + " requires a value");
              }
              i := i + 1;
              option := option.(value := argv[i]);
            }
          }
          options := options[name := option.(isSet := true)];
        } else {
          positionalArgs := positionalArgs + [arg];
        }
        i := i + 1;
      }
      outcome := Completed;
    }

    /** The positional arguments in the order they appeared. */
    function GetPositionalArgs(): (r: seq<string>)
      reads this
      ensures r == positionalArgs
    {
      positionalArgs
    }

    /** Whether `name` was given; an unregistered name is an error. */
    function IsSet(name: string): (r: Result<bool, string>)
      reads this
      ensures name in options <==> r.Ok?
      ensures r.Ok? ==> r.value == options[name].isSet
      ensures r.Err? ==> r.error == "Unknown option: " + name
    {
      if name !in options then Err("Unknown option: " + name) else Ok(options[name].isSet)
    }

    /** The value recorded for `name` (empty for a flag); an unregistered name is an error. */
    function GetValue(name: string): (r: Result<string, string>)
      reads this
      ensures name in options <==> r.Ok?
      ensures r.Ok? ==> r.value == options[name].value
      ensures r.Err? ==> r.error == "Unknown option: " + name
    {
      if name !in options then Err("Unknown option: " + name) else Ok(options[name].value)
    }
  }

  /** Every alias names a registered option. */
  predicate AliasesRegistered(options: map<string, OptionInfo>, shorts: map<char, string>)
  {
    forall c :: c in shorts ==> shorts[c] in options
  }

  /** What registration fixed about an option: alias, help and whether it takes a value. */
  predicate SameRegistry(a: map<string, OptionInfo>, b: map<string, OptionInfo>)
  {
    a.Keys == b.Keys
    && forall name :: name in a ==>
         b[name].shortName == a[name].shortName && b[name].help == a[name].help
         && b[name].requiresValue == a[name].requiresValue
  }

  /** A flag's value stays what it was. */
  predicate FlagValuesKept(a: map<string, OptionInfo>, b: map<string, OptionInfo>)
    requires a.Keys <= b.Keys
  {
    forall name :: name in a && !a[name].requiresValue ==> b[name].value == a[name].value
  }

  /** One argument registers nothing, forgets nothing and leaves every flag's value alone. */
  lemma StepKeepsRegistry(st: ParseState, shorts: map<char, string>, argv: seq<string>, i: nat)
    requires i < |argv| && AliasesRegistered(st.options, shorts)
    ensures var r := StepAt(st, shorts, argv, i);
      r.Continue? ==> SameRegistry(st.options, r.st.options) && FlagValuesKept(st.options, r.st.options)
  {
  }

  /**
   * A scan registers nothing and forgets nothing: the same names with the same
   * alias, help and value requirement; and a flag's value stays what it was.
   */
  lemma {:induction false} ParseKeepsRegistry(st: ParseState, shorts: map<char, string>, argv: seq<string>, i: nat)
    requires AliasesRegistered(st.options, shorts)
    ensures var r := ParseFrom(st, shorts, argv, i).0;
      SameRegistry(st.options, r.options) && FlagValuesKept(st.options, r.options)
    decreases |argv| - i
  {
    if i < |argv| {
      var step := StepAt(st, shorts, argv, i);
      if step.Continue? {
        StepKeepsRegistry(st, shorts, argv, i);
        ParseKeepsRegistry(step.st, shorts, argv, step.next);
      }
    }
  }

  /** A step that goes on never looks past its own argument and the next one. */
  lemma StepExtends(st: ParseState, shorts: map<char, string>, a: seq<string>, b: seq<string>, i: nat)
    requires i < |a| && StepAt(st, shorts, a, i).Continue?
    ensures StepAt(st, shorts, a + b, i) == StepAt(st, shorts, a, i)
  {
    assert (a + b)[i] == a[i];
    if i + 1 < |a| { assert (a + b)[i + 1] == a[i + 1]; }
  }

  /**
   * When the scan of `a` completes, scanning `a + b` is scanning `a` and then
   * going on with `b` from the state `a` left.
   */
  lemma {:induction false} ParseCompose(st: ParseState, shorts: map<char, string>, a: seq<string>, b: seq<string>, i: nat)
    requires i <= |a| && ParseFrom(st, shorts, a, i).1 == Completed
    ensures ParseFrom(st, shorts, a + b, i) == ParseFrom(ParseFrom(st, shorts, a, i).0, shorts, a + b, |a|)
    decreases |a| - i
  {
    if i < |a| {
      var step := StepAt(st, shorts, a, i);
      StepExtends(st, shorts, a, b, i);
      ParseCompose(step.st, shorts, a, b, step.next);
    }
  }

  /**
   * A value-taking option given once more at the end, after arguments that
   * scan without error, ends up set with that last value.
   */
  lemma LastOccurrenceWins(st: ParseState, shorts: map<char, string>, a: seq<string>, name: string, v: string)
    requires |a| >= 1 && ParseFrom(st, shorts, a, 1).1 == Completed
    requires name != "help"
    requires var st1 := ParseFrom(st, shorts, a, 1).0; name in st1.options && st1.options[name].requiresValue
    ensures var st1 := ParseFrom(st, shorts, a, 1).0;
      ParseFrom(st, shorts, a + ["--" + name, v], 1) == (MarkSet(st1, name, Some(v)), Completed)
  {
    var st1 := ParseFrom(st, shorts, a, 1).0;
    var argv := a + ["--" + name, v];
    ParseCompose(st, shorts, a, ["--" + name, v], 1);
    assert argv[|a|] == "--" + name && argv[|a| + 1] == v;
    assert ("--" + name)[2..] == name;
    assert "--" + name != "--help" by {
      assert ("--" + name)[2..] != "--help"[2..];
    }
    assert StepAt(st1, shorts, argv, |a|) == Continue(MarkSet(st1, name, Some(v)), |a| + 2);
  }

  /** Arguments none of which starts with `-` are all positional, kept in order. */
  lemma {:induction false} AllPositional(st: ParseState, shorts: map<char, string>, argv: seq<string>, i: nat)
    requires i <= |argv|
    requires forall k :: i <= k < |argv| ==> CharAt(argv[k], 0) != '-'
    ensures ParseFrom(st, shorts, argv, i) == (st.(positional := st.positional + argv[i..]), Completed)
    decreases |argv| - i
  {
    if i < |argv| {
      var arg := argv[i];
      assert arg != "--help" && !StartsWith(arg, "--") by {
        assert CharAt(arg, 0) != '-';
      }
      AllPositional(st.(positional := st.positional + [arg]), shorts, argv, i + 1);
      assert st.positional + [arg] + argv[i + 1..] == st.positional + argv[i..];
    } else {
      assert st.positional + argv[i..] == st.positional;
    }
  }
}
