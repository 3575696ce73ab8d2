/** src/fml/command_line.h and src/fml/command_line.cc: arguments to a command line and back. */
module CommandLines {
  datatype Option = Option(name: string, value: string)

  /** Without argv[0] there is nothing; the index is filled in from the options. */
  datatype CommandLine =
    | NoCommand
    | CommandLine(argv0: string, options: seq<Option>, positionalArgs: seq<string>, optionIndex: map<string, nat>)

  // ----- The grammar

  predicate StartsWithDashes(arg: string) { |arg| >= 2 && arg[0] == '-' && arg[1] == '-' }

  predicate IsOption(arg: string) { |arg| > 2 && StartsWithDashes(arg) }

  /** Position of the first '=' at or after `from`, or the length. */
  function FindEquals(arg: string, from: nat): (k: nat)
    ensures from <= |arg| ==> from <= k <= |arg| && (k < |arg| ==> arg[k] == '=')
    ensures forall i :: from <= i < k && i < |arg| ==> arg[i] != '='
    ensures from > |arg| ==> k == |arg|
    decreases |arg| - from
  {
    if from >= |arg| then |arg| else if arg[from] == '=' then from else FindEquals(arg, from + 1)
  }

  /** "--name" or "--name=value", the name at least one character long. */
  function OptionOf(arg: string): Option
    requires IsOption(arg)
  {
    var equals := FindEquals(arg, 3);
    if equals == |arg| then Option(arg[2..], "") else Option(arg[2..equals], arg[equals + 1..])
  }

  /** Number of arguments before the first that is no option. */
  function OptionCount(args: seq<string>): (k: nat)
    ensures k <= |args| && (forall i :: 0 <= i < k ==> IsOption(args[i])) && (k < |args| ==> !IsOption(args[k]))
  {
    OptionCountFrom(args, 0)
  }

  function OptionCountFrom(args: seq<string>, from: nat): (k: nat)
    requires from <= |args| && forall i :: 0 <= i < from ==> IsOption(args[i])
    ensures from <= k <= |args| && (forall i :: 0 <= i < k ==> IsOption(args[i])) && (k < |args| ==> !IsOption(args[k]))
    decreases |args| - from
  {
    if from == |args| || !IsOption(args[from]) then from else OptionCountFrom(args, from + 1)
  }

  function OptionsOf(args: seq<string>): (options: seq<Option>)
    requires forall i :: 0 <= i < |args| ==> IsOption(args[i])
    ensures |options| == |args|
  {
    seq(|args|, i requires 0 <= i < |args| => OptionOf(args[i]))
  }

  /** What follows the options, without a leading "--". */
  function PositionalsOf(rest: seq<string>): seq<string> {
    if rest != [] && rest[0] == "--" then rest[1..] else rest
  }

  /** The last position of each option name. */
  ghost predicate IsIndex(index: map<string, nat>, options: seq<Option>) {
    && (forall i :: 0 <= i < |options| ==> options[i].name in index && i <= index[options[i].name])
    && (forall name :: name in index ==> index[name] < |options| && options[index[name]].name == name)
  }

  lemma IndexGrows(index: map<string, nat>, options: seq<Option>, option: Option)
    requires IsIndex(index, options)
    ensures IsIndex(index[option.name := |options|], options + [option])
  {
    var grown := index[option.name := |options|];
    forall name | name in grown
      ensures grown[name] < |options| + 1 && (options + [option])[grown[name]].name == name
    {
      if name != option.name { assert index[name] < |options|; }
    }
  }

  function IndexOf(options: seq<Option>): (index: map<string, nat>)
    ensures IsIndex(index, options)
    decreases |options|
  {
    if options == [] then map[]
    else
      var n := |options| - 1;
      var before := IndexOf(options[..n]);
      assert options[..n] + [options[n]] == options;
      IndexGrows(before, options[..n], options[n]);
      hide IsIndex;
      before[options[n].name := n]
  }

  lemma IndexIsUnique(a: map<string, nat>, b: map<string, nat>, options: seq<Option>)
    requires IsIndex(a, options) && IsIndex(b, options)
    ensures a == b
  {
    forall name | name in a ensures name in b && a[name] == b[name] {
      assert options[a[name]].name in b;
      assert options[b[name]].name in a;
    }
    forall name | name in b ensures name in a {
      assert options[b[name]].name in a;
    }
  }

  /** The command line that the arguments spell. */
  function Parse(argv: seq<string>): CommandLine {
    if argv == [] then NoCommand
    else
      var args := argv[1..];
      var k := OptionCount(args);
      var options := OptionsOf(args[..k]);
      CommandLine(argv[0], options, PositionalsOf(args[k..]), IndexOf(options))
  }

  function PrintOption(option: Option): string {
    if option.value == "" then "--" + option.name else "--" + option.name + "=" + option.value
  }

  function PrintOptions(options: seq<Option>): (args: seq<string>)
    ensures |args| == |options|
  {
    seq(|options|, i requires 0 <= i < |options| => PrintOption(options[i]))
  }

  function PrintPositionals(args: seq<string>): seq<string> {
    if args != [] && StartsWithDashes(args[0]) then ["--"] + args else args
  }

  function Print(c: CommandLine): seq<string> {
    if c.NoCommand? then []
    else [c.argv0] + PrintOptions(c.options) + PrintPositionals(c.positionalArgs)
  }

  /** Names the grammar can spell: not empty, and no '=' but as the first character. */
  predicate Spellable(name: string) { |name| >= 1 && forall i :: 1 <= i < |name| ==> name[i] != '=' }

  /** The text of a printed command line, piece by piece. */
  lemma PrintedText(c: CommandLine)
    ensures c.NoCommand? ==> Print(c) == []
    ensures c.CommandLine? ==>
      var p := c.positionalArgs;
      var separated := p != [] && |p[0]| >= 2 && p[0][0] == '-' && p[0][1] == '-';
      && |Print(c)| == 1 + |c.options| + (if separated then 1 else 0) + |p|
      && Print(c)[0] == c.argv0
      && (forall i :: 0 <= i < |c.options| ==>
            Print(c)[1 + i] == "--" + c.options[i].name + if c.options[i].value == "" then "" else "=" + c.options[i].value)
      && (separated ==> Print(c)[1 + |c.options|] == "--")
      && Print(c)[|Print(c)| - |p|..] == p
  {
    if c.CommandLine? {
      forall i | 0 <= i < |c.options|
        ensures Print(c)[1 + i] == "--" + c.options[i].name + if c.options[i].value == "" then "" else "=" + c.options[i].value
      {
        OptionText(c.options[i]);
      }
    }
  }

  lemma OptionText(o: Option)
    ensures PrintOption(o) == "--" + o.name + if o.value == "" then "" else "=" + o.value
  {
    assert "--" + o.name + "" == "--" + o.name;
    assert "--" + o.name + "=" + o.value == "--" + o.name + ("=" + o.value);
  }

  // ----- Round trips

  /** An argument spells its option as Print would, or with an '=' and nothing after it. */
  lemma OptionSpelling(arg: string)
    requires IsOption(arg)
    ensures var o := OptionOf(arg); arg == PrintOption(o) || (o.value == "" && arg == PrintOption(o) + "=")
  {
    var equals := FindEquals(arg, 3);
    assert arg[..2] == "--" && arg == arg[..2] + arg[2..];
    if equals < |arg| {
      assert arg[2..] == arg[2..equals] + [arg[equals]] + arg[equals + 1..];
      assert arg == "--" + arg[2..equals] + "=" + arg[equals + 1..];
    }
  }

  lemma PositionalSpelling(rest: seq<string>)
    requires rest != [] ==> !IsOption(rest[0])
    ensures rest == PrintPositionals(PositionalsOf(rest)) || rest == ["--"] + PositionalsOf(rest)
  {
    if rest != [] && StartsWithDashes(rest[0]) {
      assert rest[0] == "--" && rest == ["--"] + rest[1..];
    }
  }

  /** All the ways to spell a command line: option by option as printed, or with an '=' more where there
      is no value, and a "--" more before the positional arguments. Nothing shorter will do than what
      Print gives. */
  lemma EverySpelling(argv: seq<string>, c: CommandLine)
    requires c.CommandLine? && Parse(argv) == c
    ensures |Print(c)| <= |argv| && argv[0] == c.argv0 && 1 + |c.options| <= |argv|
    ensures forall i :: 0 <= i < |c.options| ==>
      argv[1 + i] == PrintOption(c.options[i]) || (c.options[i].value == "" && argv[1 + i] == PrintOption(c.options[i]) + "=")
    ensures var rest := argv[1 + |c.options|..];
      rest == PrintPositionals(c.positionalArgs) || rest == ["--"] + c.positionalArgs
  {
    hide OptionOf, PrintOption, IsOption, PrintPositionals, PositionalsOf;
    var args := argv[1..];
    var k := |c.options|;
    assert k == OptionCount(args);
    forall i | 0 <= i < k
      ensures argv[1 + i] == PrintOption(c.options[i]) || (c.options[i].value == "" && argv[1 + i] == PrintOption(c.options[i]) + "=")
    {
      OptionSpelling(args[i]);
    }
    assert args[k..] == argv[1 + k..];
    PositionalSpelling(args[k..]);
    PositionalsLength(c.positionalArgs);
  }

  lemma PositionalsLength(args: seq<string>)
    ensures |PrintPositionals(args)| <= |args| + 1
  {
  }

  lemma ParsedIsSpellable(arg: string)
    requires IsOption(arg)
    ensures Spellable(OptionOf(arg).name)
  {
    var name := OptionOf(arg).name;
    forall i | 1 <= i < |name| ensures name[i] != '=' {
      assert name[i] == arg[2 + i];
    }
  }

  lemma FindEqualsIs(arg: string, from: nat, k: nat)
    requires from <= k <= |arg| && (k < |arg| ==> arg[k] == '=')
    requires forall i :: from <= i < k ==> arg[i] != '='
    ensures FindEquals(arg, from) == k
  {
  }

  lemma PrintedOption(option: Option)
    requires Spellable(option.name)
    ensures IsOption(PrintOption(option)) && OptionOf(PrintOption(option)) == option
  {
    var arg := PrintOption(option);
    var k := 2 + |option.name|;
    assert arg[2..k] == option.name;
    forall i | 3 <= i < k ensures arg[i] != '=' {
      assert arg[i] == option.name[i - 2];
    }
    if option.value != "" {
      assert arg[k] == '=' && arg[k + 1..] == option.value;
    }
    FindEqualsIs(arg, 3, k);
  }

  lemma OptionCountIs(args: seq<string>, k: nat)
    requires k <= |args| && (forall i :: 0 <= i < k ==> IsOption(args[i])) && (k < |args| ==> !IsOption(args[k]))
    ensures OptionCount(args) == k
  {
  }

  lemma PositionalsReturn(args: seq<string>)
    ensures PositionalsOf(PrintPositionals(args)) == args
    ensures PrintPositionals(args) != [] ==> !IsOption(PrintPositionals(args)[0])
  {
    if args != [] && StartsWithDashes(args[0]) {
      assert (["--"] + args)[1..] == args;
    }
  }

  lemma OptionsReturn(options: seq<Option>)
    requires forall i :: 0 <= i < |options| ==> Spellable(options[i].name)
    ensures forall i :: 0 <= i < |options| ==> IsOption(PrintOptions(options)[i])
    ensures OptionsOf(PrintOptions(options)) == options
  {
    forall i | 0 <= i < |options|
      ensures IsOption(PrintOptions(options)[i]) && OptionOf(PrintOptions(options)[i]) == options[i]
    {
      PrintedOption(options[i]);
    }
  }

  /** Print is undone by Parse exactly when every option name can be spelled. */
  lemma ParseAfterPrint(c: CommandLine)
    requires c.CommandLine? ==> IsIndex(c.optionIndex, c.options)
    ensures Parse(Print(c)) == c <==> c.NoCommand? || forall i :: 0 <= i < |c.options| ==> Spellable(c.options[i].name)
  {
    hide Spellable, OptionOf, IsOption, PrintOption, IsIndex, OptionCount;
    if c.CommandLine? {
      if forall i :: 0 <= i < |c.options| ==> Spellable(c.options[i].name) {
        var printed, rest := PrintOptions(c.options), PrintPositionals(c.positionalArgs);
        OptionsReturn(c.options);
        PositionalsReturn(c.positionalArgs);
        var args := Print(c)[1..];
        assert args == printed + rest;
        OptionCountIs(args, |printed|);
        assert args[..|printed|] == printed && args[|printed|..] == rest;
        IndexIsUnique(c.optionIndex, IndexOf(c.options), c.options);
      } else {
        ParsedIsWellFormed(Print(c));
      }
    }
  }

  lemma ParsedIsWellFormed(argv: seq<string>)
    ensures var c := Parse(argv);
      c.CommandLine? ==>
        && IsIndex(c.optionIndex, c.options)
        && forall i :: 0 <= i < |c.options| ==> Spellable(c.options[i].name)
  {
    hide Spellable, OptionOf, IsOption, IsIndex;
    if argv != [] {
      var args := argv[1..];
      forall i | 0 <= i < |Parse(argv).options| ensures Spellable(Parse(argv).options[i].name) {
        ParsedIsSpellable(args[i]);
      }
    }
  }

  /** For every argv: what the parser understood, printed and parsed again, is the same. */
  lemma ParsePrintParse(argv: seq<string>)
    ensures Parse(Print(Parse(argv))) == Parse(argv)
  {
    ParsedIsWellFormed(argv);
    ParseAfterPrint(Parse(argv));
  }

  /** So printing a parsed line a second time changes nothing more. */
  lemma PrintIsIdempotent(argv: seq<string>)
    ensures Print(Parse(Print(Parse(argv)))) == Print(Parse(argv))
  {
    hide Parse, Print;
    ParsePrintParse(argv);
  }

  /** Position of the first positional argument in argv, or its end. */
  function FirstPositional(argv: seq<string>): (k: nat)
    ensures k <= |argv|
  {
    if argv == [] then 0
    else
      var k := 1 + OptionCount(argv[1..]);
      if k < |argv| && argv[k] == "--" then k + 1 else k
  }

  lemma PositionalsAreSuffix(argv: seq<string>)
    ensures var c := Parse(argv);
      (if c.CommandLine? then c.positionalArgs else []) == argv[FirstPositional(argv)..]
  {
    if argv != [] {
      var args := argv[1..];
      var k := OptionCount(args);
      assert args[k..] == argv[1 + k..];
      if k < |args| && args[k] == "--" {
        assert args[k..][1..] == argv[2 + k..];
      }
    }
  }

  // ----- The builder and the factory loops

  /** One argument more. */
  lemma NextArgument(args: seq<string>, arg: string)
    ensures var k := OptionCount(args); var all := args + [arg];
      if k < |args| then
        OptionCount(all) == k && all[..k] == args[..k] && PositionalsOf(all[k..]) == PositionalsOf(args[k..]) + [arg]
      else if IsOption(arg) then
        OptionCount(all) == |all| && OptionsOf(all) == OptionsOf(args) + [OptionOf(arg)]
      else
        OptionCount(all) == k && all[..k] == args && PositionalsOf(all[k..]) == if arg == "--" then [] else [arg]
  {
    hide OptionOf, IsOption;
    var k := OptionCount(args);
    var all := args + [arg];
    if k < |args| {
      OptionCountIs(all, k);
      assert all[k..] == args[k..] + [arg];
      assert PositionalsOf(args[k..] + [arg]) == PositionalsOf(args[k..]) + [arg];
    } else if IsOption(arg) {
      OptionCountIs(all, |all|);
    } else {
      OptionCountIs(all, k);
      assert all[k..] == [arg] && [arg][1..] == [];
    }
  }

  /** What is known after some arguments. */
  datatype Progress = Progress(
    hasArgv0: bool, argv0: string, options: seq<Option>, positionalArgs: seq<string>, startedPositionalArgs: bool)

  function ProgressOf(seen: seq<string>): Progress {
    if seen == [] then Progress(false, "", [], [], false)
    else
      var args := seen[1..];
      var k := OptionCount(args);
      Progress(true, seen[0], OptionsOf(args[..k]), PositionalsOf(args[k..]), k < |args|)
  }

  lemma NextProgress(seen: seq<string>, arg: string)
    ensures var p := ProgressOf(seen);
      ProgressOf(seen + [arg]) ==
        if !p.hasArgv0 then p.(hasArgv0 := true, argv0 := arg)
        else if p.startedPositionalArgs then p.(positionalArgs := p.positionalArgs + [arg])
        else if !StartsWithDashes(arg) then p.(startedPositionalArgs := true, positionalArgs := p.positionalArgs + [arg])
        else if |arg| == 2 then p.(startedPositionalArgs := true)
        else p.(options := p.options + [OptionOf(arg)])
  {
    hide OptionOf, OptionCount, OptionsOf;
    if seen == [] {
      NothingParsed(arg);
    } else {
      var args := seen[1..];
      NextArgument(args, arg);
      assert (seen + [arg])[1..] == args + [arg];
      assert args[..|args|] == args && (args + [arg])[..|args| + 1] == args + [arg];
      if |arg| == 2 && StartsWithDashes(arg) {
        assert arg == "--";
      }
    }
  }

  lemma NothingParsed(arg: string)
    ensures ProgressOf([] + [arg]) == Progress(true, arg, [], [], false)
    ensures FirstPositional([]) == 0 && FirstPositional([] + [arg]) == 1
  {
    assert [arg][1..] == [];
  }

  lemma FirstPositionalNext(seen: seq<string>, arg: string)
    ensures var before := FirstPositional(seen); var after := FirstPositional(seen + [arg]);
      && after >= before && (before < |seen| ==> after == before)
      && (after == |seen| <==>
            var p := ProgressOf(seen);
            p.hasArgv0 && p.positionalArgs == [] && (p.startedPositionalArgs || !StartsWithDashes(arg)))
  {
    hide OptionOf, OptionsOf;
    if seen == [] {
      NothingParsed(arg);
    } else {
      assert (seen + [arg])[1..] == seen[1..] + [arg];
      NextArgument(seen[1..], arg);
      if |arg| == 2 && StartsWithDashes(arg) {
        assert arg == "--";
      }
    }
  }

  class CommandLineBuilder {
    var hasArgv0: bool
    var argv0: string
    var options: seq<Option>
    var positionalArgs: seq<string>
    var startedPositionalArgs: bool
    ghost var seen: seq<string>  // the arguments processed so far

    ghost predicate Valid()
      reads this
    {
      ProgressOf(seen) == Progress(hasArgv0, argv0, options, positionalArgs, startedPositionalArgs)
    }

    constructor ()
      ensures Valid() && seen == []
    {
      hasArgv0, argv0, options, positionalArgs, startedPositionalArgs, seen := false, "", [], [], false, [];
    }

    /** Returns true if `arg` is the first positional argument. */
    method ProcessArg(arg: string) returns (first: bool)
      requires Valid()
      modifies this
      ensures Valid() && seen == old(seen) + [arg]
      ensures first <==> FirstPositional(seen) == |old(seen)|
      ensures FirstPositional(seen) >= FirstPositional(old(seen))
      ensures FirstPositional(old(seen)) < |old(seen)| ==> FirstPositional(seen) == FirstPositional(old(seen))
    {
      hide ProgressOf, FirstPositional, OptionOf;
      FirstPositionalNext(seen, arg);
      NextProgress(seen, arg);
      seen := seen + [arg];
      if !hasArgv0 {
        hasArgv0, argv0 := true, arg;
        return false;
      }
      if startedPositionalArgs {
        first := positionalArgs == [];
        positionalArgs := positionalArgs + [arg];
        return;
      }
      if |arg| < 2 || arg[0] != '-' || arg[1] != '-' {
        first := positionalArgs == [];
        startedPositionalArgs := true;
        positionalArgs := positionalArgs + [arg];
        return;
      }
      if |arg| == 2 {
        startedPositionalArgs := true;
        return false;
      }
      var equals := FindEquals(arg, 3);
      options := options + [NewOption(arg, equals)];
      return false;
    }

    method Build() returns (c: CommandLine)
      requires Valid()
      ensures c == Parse(seen)
    {
      if !hasArgv0 {
        return NoCommand;
      }
      c := MakeCommandLine(argv0, options, positionalArgs);
    }
  }

  /** The option an argument spells, given where its '=' is. */
  function NewOption(arg: string, equals: nat): (option: Option)
    requires IsOption(arg) && equals == FindEquals(arg, 3)
    ensures option == OptionOf(arg)
  {
    if equals == |arg| then Option(arg[2..], "") else Option(arg[2..equals], arg[equals + 1..])
  }

  /** The constructor: its loop leaves the last position of each name in the index. */
  method MakeCommandLine(argv0: string, options: seq<Option>, positionalArgs: seq<string>) returns (c: CommandLine)
    ensures c == CommandLine(argv0, options, positionalArgs, IndexOf(options))
    ensures IsIndex(c.optionIndex, options)
  {
    hide IsIndex;
    var index: map<string, nat> := map[];
    for i := 0 to |options|
      invariant index == IndexOf(options[..i])
    {
      assert options[..i + 1][..i] == options[..i];
      index := index[options[i].name := i];
    }
    assert options[..|options|] == options;
    c := CommandLine(argv0, options, positionalArgs, index);
  }

  method FromIteratorsFindFirstPositionalArg(argv: seq<string>) returns (c: CommandLine, first: nat)
    ensures c == Parse(argv) && first == FirstPositional(argv)
  {
    hide Parse, FirstPositional;
    first := |argv|;
    var builder := new CommandLineBuilder();
    for i := 0 to |argv|
      invariant fresh(builder) && builder.Valid() && builder.seen == argv[..i]
      invariant first == if FirstPositional(argv[..i]) < i then FirstPositional(argv[..i]) else |argv|
    {
      assert argv[..i] + [argv[i]] == argv[..i + 1];
      var isFirst := builder.ProcessArg(argv[i]);
      if isFirst {
        first := i;
      }
    }
    assert argv[..|argv|] == argv;
    c := builder.Build();
  }

  method FromIteratorsWithArgv0(argv0: string, args: seq<string>) returns (c: CommandLine)
    ensures c == Parse([argv0] + args)
  {
    var builder := new CommandLineBuilder();
    var _ := builder.ProcessArg(argv0);
    for i := 0 to |args|
      invariant fresh(builder) && builder.Valid() && builder.seen == [argv0] + args[..i]
    {
      assert [argv0] + args[..i] + [args[i]] == [argv0] + args[..i + 1];
      var _ := builder.ProcessArg(args[i]);
    }
    assert args[..|args|] == args;
    c := builder.Build();
  }

  method ToArgv(c: CommandLine) returns (argv: seq<string>)
    ensures argv == Print(c)
  {
    if c.NoCommand? {
      return [];
    }
    argv := [c.argv0];
    for i := 0 to |c.options|
      invariant argv == [c.argv0] + PrintOptions(c.options[..i])
    {
      var option := c.options[i];
      if option.value == "" {
        argv := argv + ["--" + option.name];
      } else {
        argv := argv + ["--" + option.name + "=" + option.value];
      }
      assert PrintOptions(c.options[..i + 1]) == PrintOptions(c.options[..i]) + [PrintOption(option)];
    }
    assert c.options[..|c.options|] == c.options;
    if c.positionalArgs != [] {
      if |c.positionalArgs[0]| >= 2 && c.positionalArgs[0][0] == '-' && c.positionalArgs[0][1] == '-' {
        argv := argv + ["--"];
      }
      argv := argv + c.positionalArgs;
    }
  }

  // ----- Lookups

  function OptionsIn(c: CommandLine): seq<Option> { if c.NoCommand? then [] else c.options }

  /** The index answers as a scan for the last occurrence would. */
  method HasOption(c: CommandLine, name: string) returns (has: bool, index: nat)
    requires c.CommandLine? ==> IsIndex(c.optionIndex, c.options)
    ensures has <==> exists i :: 0 <= i < |OptionsIn(c)| && OptionsIn(c)[i].name == name
    ensures has ==>
      && index < |OptionsIn(c)| && OptionsIn(c)[index].name == name
      && forall j :: index < j < |OptionsIn(c)| ==> OptionsIn(c)[j].name != name
  {
    index := 0;
    has := c.CommandLine? && name in c.optionIndex;
    if has {
      index := c.optionIndex[name];
      assert OptionsIn(c)[index].name == name;
    }
  }

  function ValuesOf(options: seq<Option>, name: string): seq<string> {
    if options == [] then []
    else
      var n := |options| - 1;
      ValuesOf(options[..n], name) + if options[n].name == name then [options[n].value] else []
  }

  /** The last value given for a name. */
  lemma {:induction false} LastValue(options: seq<Option>, name: string, k: nat)
    requires k < |options| && options[k].name == name
    requires forall j :: k < j < |options| ==> options[j].name != name
    ensures var values := ValuesOf(options, name); values != [] && values[|values| - 1] == options[k].value
  {
    if k < |options| - 1 {
      LastValue(options[..|options| - 1], name, k);
    }
  }

  lemma {:induction false} NoValues(options: seq<Option>, name: string)
    requires forall i :: 0 <= i < |options| ==> options[i].name != name
    ensures ValuesOf(options, name) == []
  {
    if options != [] {
      NoValues(options[..|options| - 1], name);
    }
  }

  /** `at` are the positions of the options of that name, in order, and `values` what is there. */
  ghost predicate AreOccurrences(options: seq<Option>, name: string, at: seq<nat>, values: seq<string>) {
    && |at| == |values|
    && (forall i, j :: 0 <= i < j < |at| ==> at[i] < at[j])
    && (forall i :: 0 <= i < |at| ==> at[i] < |options| && options[at[i]].name == name && options[at[i]].value == values[i])
    && (forall k :: 0 <= k < |options| && options[k].name == name ==> k in at)
  }

  lemma {:induction false} ValuesAreOccurrences(options: seq<Option>, name: string) returns (at: seq<nat>)
    ensures AreOccurrences(options, name, at, ValuesOf(options, name))
  {
    if options == [] {
      at := [];
    } else {
      var n := |options| - 1;
      var before := ValuesAreOccurrences(options[..n], name);
      at := before + if options[n].name == name then [n] else [];
      forall k | 0 <= k < |options| && options[k].name == name ensures k in at {
        if k < n { assert options[..n][k].name == name; }
      }
    }
  }

  /** Every value given for the name, in the order given. */
  method GetOptionValues(c: CommandLine, name: string) returns (values: seq<string>)
    ensures values == ValuesOf(OptionsIn(c), name)
    ensures exists at :: AreOccurrences(OptionsIn(c), name, at, values)
  {
    ghost var at := ValuesAreOccurrences(OptionsIn(c), name);
    values := [];
    if c.CommandLine? {
      for i := 0 to |c.options|
        invariant values == ValuesOf(c.options[..i], name)
      {
        assert c.options[..i + 1][..i] == c.options[..i];
        if c.options[i].name == name {
          values := values + [c.options[i].value];
        }
      }
      assert c.options[..|c.options|] == c.options;
    }
  }

  /** The last of all the values given, if there is any. */
  method GetOptionValue(c: CommandLine, name: string) returns (has: bool, value: string)
    requires c.CommandLine? ==> IsIndex(c.optionIndex, c.options)
    ensures var values := ValuesOf(OptionsIn(c), name);
      has == (values != []) && (has ==> value == values[|values| - 1])
  {
    hide ValuesOf, IsIndex;
    var index;
    has, index := HasOption(c, name);
    value := "";
    if has {
      LastValue(c.options, name, index);
      value := c.options[index].value;
    } else {
      NoValues(OptionsIn(c), name);
    }
  }

  method GetOptionValueWithDefault(c: CommandLine, name: string, default: string) returns (value: string)
    requires c.CommandLine? ==> IsIndex(c.optionIndex, c.options)
    ensures var values := ValuesOf(OptionsIn(c), name);
      value == if values == [] then default else values[|values| - 1]
  {
    hide ValuesOf, IsIndex;
    var has;
    has, value := GetOptionValue(c, name);
    if !has {
      value := default;
    }
  }
}
