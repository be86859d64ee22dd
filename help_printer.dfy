/**
 * Help and version output (src/helpPrinter.cpp): the text `HelpFormatter` writes for a
 * command, the line `VersionPrinter` writes, and the library's ready-made help and version
 * options and commands.
 */
module HelpPrinter {
  import opened Wrappers
  import opened ErrorCategory
  import opened Declarations

  // ---------------------------------------------------------------- order of sub-commands

  /** The order of `std::map<StringView, Command>` keys: lexicographic by character, a
      prefix before every extension of it. */
  predicate LessEq(a: string, b: string)
    decreases |a|
  {
    a == [] || (b != [] && (a[0] < b[0] || (a[0] == b[0] && LessEq(a[1..], b[1..]))))
  }

  lemma LessEqTotal(a: string, b: string)
    ensures LessEq(a, b) || LessEq(b, a)
    decreases |a|
  {
    if a != [] && b != [] && a[0] == b[0] {
      LessEqTotal(a[1..], b[1..]);
    }
  }

  lemma {:induction false} LessEqAntisymmetric(a: string, b: string)
    requires LessEq(a, b) && LessEq(b, a)
    ensures a == b
    decreases |a|
  {
    if a != [] {
      LessEqAntisymmetric(a[1..], b[1..]);
      assert a == [a[0]] + a[1..] && b == [b[0]] + b[1..];
    }
  }

  lemma {:induction false} LessEqTransitive(a: string, b: string, c: string)
    requires LessEq(a, b) && LessEq(b, c)
    ensures LessEq(a, c)
    decreases |a|
  {
    if a != [] && a[0] == b[0] && b[0] == c[0] {
      LessEqTransitive(a[1..], b[1..], c[1..]);
    }
  }

  lemma AntisymmetricEverywhere()
    ensures forall a: string, b: string :: LessEq(a, b) && LessEq(b, a) ==> a == b
  {
    forall a: string, b: string | LessEq(a, b) && LessEq(b, a)
      ensures a == b
    {
      LessEqAntisymmetric(a, b);
    }
  }

  lemma LessEqReflexive(a: string)
    ensures LessEq(a, a)
  {
    LessEqTotal(a, a);
  }

  lemma {:induction false} HasLeast(s: set<string>)
    requires s != {}
    ensures exists m :: m in s && forall x :: x in s ==> LessEq(m, x)
    decreases |s|
  {
    var y :| y in s;
    var rest := s - {y};
    if rest == {} {
      LessEqReflexive(y);
      assert s == {y};
    } else {
      HasLeast(rest);
      var r :| r in rest && forall x :: x in rest ==> LessEq(r, x);
      var m := if LessEq(r, y) then r else y;
      forall x | x in s
        ensures LessEq(m, x)
      {
        if x == y {
          if m == y { LessEqReflexive(y); }
        } else if m == y {
          LessEqTotal(r, y);
          LessEqTransitive(y, r, x);
        } else {
          assert x in rest;
        }
      }
      assert m in s;
    }
  }

  /** The first key of a set in map order. */
  function Least(s: set<string>): (m: string)
    requires s != {}
    ensures m in s && forall x :: x in s ==> LessEq(m, x)
  {
    HasLeast(s);
    AntisymmetricEverywhere();
    var m :| m in s && forall x :: x in s ==> LessEq(m, x);
    m
  }

  /** The keys of a sub-command map in the order `std::map` visits them: the least key,
      then the others in order. */
  function SortedKeys(s: set<string>): (r: seq<string>)
    ensures forall x :: x in s <==> x in r
    decreases |s|
  {
    if s == {} then []
    else
      var m := Least(s);
      [m] + SortedKeys(s - {m})
  }

  /** Every key is strictly below each later one; so no key appears twice. */
  predicate StrictlyIncreasing(r: seq<string>)
  {
    forall i, j :: 0 <= i < j < |r| ==> LessEq(r[i], r[j]) && r[i] != r[j]
  }

  /** Putting a key strictly below all others in front keeps a sequence increasing. */
  lemma PrependLeast(m: string, rest: seq<string>)
    requires StrictlyIncreasing(rest)
    requires forall k :: 0 <= k < |rest| ==> LessEq(m, rest[k]) && m != rest[k]
    ensures StrictlyIncreasing([m] + rest)
  {
    var r := [m] + rest;
    forall i, j | 0 <= i < j < |r|
      ensures LessEq(r[i], r[j]) && r[i] != r[j]
    {
      assert r[j] == rest[j - 1];
      if i > 0 {
        assert r[i] == rest[i - 1];
      }
    }
  }

  /** Each key appears once and the keys increase strictly. */
  lemma {:induction false} SortedKeysOrdered(s: set<string>)
    ensures |SortedKeys(s)| == |s|
    ensures StrictlyIncreasing(SortedKeys(s))
    decreases |s|
  {
    if s != {} {
      var m := Least(s);
      var rest := SortedKeys(s - {m});
      SortedKeysOrdered(s - {m});
      forall k | 0 <= k < |rest|
        ensures LessEq(m, rest[k]) && m != rest[k]
      {
        assert rest[k] in s - {m};
      }
      PrependLeast(m, rest);
      assert SortedKeys(s) == [m] + rest;
    }
  }

  // ---------------------------------------------------------------- option lines

  /** One name of an option as help shows it: a one-letter name behind one prefix
      character, a longer name behind two. */
  function Alias(prefix: char, name: string): (a: string)
    ensures |a| - |name| == (if |name| == 1 then 1 else 2)
    ensures a[|a| - |name|..] == name
    ensures forall k :: 0 <= k < |a| - |name| ==> a[k] == prefix
  {
    if |name| == 1 then [prefix] + name else [prefix, prefix] + name
  }

  /** The names column of an option line: every alias, separated by ", ". */
  function AliasColumn(prefix: char, names: seq<string>): string
    decreases |names|
  {
    if names == [] then ""
    else if |names| == 1 then Alias(prefix, names[0])
    else AliasColumn(prefix, names[..|names| - 1]) + ", " + Alias(prefix, names[|names| - 1])
  }

  /** An independent reading of the names column: the first alias, then ", " before each
      further one. */
  function JoinAliases(prefix: char, names: seq<string>): string
    decreases |names|
  {
    if names == [] then ""
    else if |names| == 1 then Alias(prefix, names[0])
    else Alias(prefix, names[0]) + ", " + JoinAliases(prefix, names[1..])
  }

  lemma {:induction false} JoinAliasesSnoc(prefix: char, names: seq<string>, last: string)
    requires names != []
    ensures JoinAliases(prefix, names + [last]) == JoinAliases(prefix, names) + ", " + Alias(prefix, last)
    decreases |names|
  {
    var all := names + [last];
    if |names| == 1 {
      assert all[1..] == [last];
    } else {
      assert all[1..] == names[1..] + [last];
      JoinAliasesSnoc(prefix, names[1..], last);
    }
  }

  lemma {:induction false} AliasColumnIsJoin(prefix: char, names: seq<string>)
    ensures AliasColumn(prefix, names) == JoinAliases(prefix, names)
    decreases |names|
  {
    var n := |names|;
    if n >= 2 {
      AliasColumnIsJoin(prefix, names[..n - 1]);
      JoinAliasesSnoc(prefix, names[..n - 1], names[n - 1]);
      assert names[..n - 1] + [names[n - 1]] == names;
    }
  }

  /** The names column with the aliases given as a prefix of the names and one more. */
  lemma AliasColumnExtend(prefix: char, names: seq<string>, k: nat)
    requires 0 < k < |names|
    ensures AliasColumn(prefix, names[..k + 1]) == AliasColumn(prefix, names[..k]) + ", " + Alias(prefix, names[k])
  {
    assert names[..k + 1][..k] == names[..k];
  }

  function Spaces(n: nat): (s: string)
    ensures |s| == n && forall k :: 0 <= k < n ==> s[k] == ' '
  {
    if n == 0 then [] else [' '] + Spaces(n - 1)
  }

  /** `std::left << std::setw(width)`: pad with spaces on the right up to `width`; longer
      text is written whole. */
  function PadRight(s: string, width: nat): (r: string)
    ensures |r| == if |s| < width then width else |s|
    ensures r[..|s|] == s
    ensures forall k :: |s| <= k < |r| ==> r[k] == ' '
  {
    if |s| < width then s + Spaces(width - |s|) else s
  }

  /** `formatOption`: two spaces, the names column padded to 26, the description, a newline. */
  function OptionLine(prefix: char, o: Option): string {
    "  " + PadRight(AliasColumn(prefix, o.names), 26) + o.description + "\n"
  }

  /** Option descriptions line up at column 28 whenever the names fit in 26 characters. */
  lemma OptionLineLayout(prefix: char, o: Option)
    requires |AliasColumn(prefix, o.names)| <= 26
    ensures |OptionLine(prefix, o)| == 28 + |o.description| + 1
    ensures OptionLine(prefix, o)[..2] == "  "
    ensures OptionLine(prefix, o)[2..2 + |AliasColumn(prefix, o.names)|] == AliasColumn(prefix, o.names)
    ensures OptionLine(prefix, o)[28..28 + |o.description|] == o.description
  {
    PaddedLine(AliasColumn(prefix, o.names), o.description);
  }

  /** Two spaces, a column padded to 26 and a text: the text starts at column 28. */
  lemma PaddedLine(column: string, text: string)
    requires |column| <= 26
    ensures var line := "  " + PadRight(column, 26) + text + "\n";
      |line| == 28 + |text| + 1 && line[..2] == "  " && line[2..2 + |column|] == column &&
      line[28..28 + |text|] == text
  {
    var padded := PadRight(column, 26);
    var line := "  " + padded + text + "\n";
    assert line[2..2 + |column|] == padded[..|column|];
    assert line[28..28 + |text|] == text;
  }

  /** `formatOption`, building the names column with its `chained` flag. */
  method FormatOption(prefix: char, o: Option) returns (line: string)
    ensures line == OptionLine(prefix, o)
  {
    var s := "";
    var chained := false;
    var k := 0;
    while k < |o.names|
      invariant 0 <= k <= |o.names|
      invariant chained <==> k > 0
      invariant s == AliasColumn(prefix, o.names[..k])
    {
      var optName := o.names[k];
      if k > 0 {
        AliasColumnExtend(prefix, o.names, k);
      } else {
        assert o.names[..1] == [optName];
      }
      if chained {
        s := s + ", ";
      }
      if |optName| == 1 {
        s := s + [prefix] + optName;
      } else {
        s := s + [prefix, prefix] + optName;
      }
      chained := true;
      k := k + 1;
    }
    assert o.names[..k] == o.names;
    line := "  " + PadRight(s, 26) + o.description + "\n";
  }

  // ---------------------------------------------------------------- command lines

  /** A command line of the help text: two spaces, the name padded with spaces to 16, the
      description, a newline. */
  function CommandLine(name: string, cmd: Command): string {
    "  " + PadRight(name, 16) + cmd.description + "\n"
  }

  /** `fillBuffer` of `formatCommand`: fifteen spaces and the terminating NUL. */
  function FillBuffer(): (b: string)
    ensures |b| == 16 && b[15] == '\0'
    ensures forall k :: 0 <= k < 15 ==> b[k] == ' '
  {
    Spaces(15) + ['\0']
  }

  /** `formatCommand` as written: `16 - |name|` bytes of the fill buffer follow a name
      shorter than 16. */
  function CommandLineAsWritten(name: string, cmd: Command): string {
    "  " + name + (if |name| < 16 then FillBuffer()[..16 - |name|] else "") + cmd.description + "\n"
  }

  /** For every non-empty name, the line as written is the padded line. */
  lemma CommandLineAsWrittenPads(name: string, cmd: Command)
    requires |name| > 0
    ensures CommandLineAsWritten(name, cmd) == CommandLine(name, cmd)
  {
    if |name| < 16 {
      assert FillBuffer()[..16 - |name|] == Spaces(16 - |name|);
      assert PadRight(name, 16) == name + Spaces(16 - |name|);
    }
  }

  /** A command registered under the empty name gets the buffer's NUL byte in its help
      line; the padded line holds no NUL beyond those of the description. */
  lemma EmptyCommandNameWritesNul(cmd: Command)
    requires '\0' !in cmd.description
    ensures CommandLineAsWritten("", cmd)[17] == '\0'
    ensures '\0' !in CommandLine("", cmd)
  {
    var line := CommandLine("", cmd);
    assert line == "  " + Spaces(16) + cmd.description + "\n";
    forall k | 0 <= k < |line|
      ensures line[k] != '\0'
    {
      if k < 18 {
        assert line[k] == ' ';
      } else if k < 18 + |cmd.description| {
        assert line[k] == cmd.description[k - 18];
      }
    }
  }

  /** Command descriptions line up at column 18 whenever the name fits in 16 characters. */
  lemma CommandLineLayout(name: string, cmd: Command)
    requires |name| <= 16
    ensures |CommandLine(name, cmd)| == 18 + |cmd.description| + 1
    ensures CommandLine(name, cmd)[2..2 + |name|] == name
    ensures CommandLine(name, cmd)[18..18 + |cmd.description|] == cmd.description
  {
  }

  // ---------------------------------------------------------------- HelpFormatter

  /** The usage-line part for positional arguments: " [name]" for each. */
  function ArgumentsUsage(arguments: seq<Argument>): string
    decreases |arguments|
  {
    if arguments == [] then ""
    else ArgumentsUsage(arguments[..|arguments| - 1]) + " [" + arguments[|arguments| - 1].name + "]"
  }

  /** The first line of help. */
  function UsageLine(progname: string, cmd: Command): string {
    "Usage: " + progname
    + (if |cmd.options| > 0 then " [options]" else "")
    + ArgumentsUsage(cmd.arguments)
    + (if |cmd.commands| > 0 then " <command>" else "")
    + "\n"
  }

  function OptionLines(prefix: char, options: seq<Option>): string
    decreases |options|
  {
    if options == [] then ""
    else OptionLines(prefix, options[..|options| - 1]) + OptionLine(prefix, options[|options| - 1])
  }

  function CommandLines(keys: seq<string>, commands: map<string, Command>): string
    requires forall i :: 0 <= i < |keys| ==> keys[i] in commands
    decreases |keys|
  {
    if keys == [] then ""
    else CommandLines(keys[..|keys| - 1], commands) + CommandLine(keys[|keys| - 1], commands[keys[|keys| - 1]])
  }

  /** `HelpFormatter::operator()`: usage line, description, then the option lines and the
      sub-command lines (in map order) under their headings when there are any. */
  function HelpText(prefix: char, progname: string, cmd: Command): string {
    UsageLine(progname, cmd)
    + cmd.description + "\n"
    + OptionsSection(prefix, cmd.options)
    + CommandsSection(cmd.commands)
  }

  /** "Options:" and the option lines, when there are options. */
  function OptionsSection(prefix: char, options: seq<Option>): string {
    if |options| > 0 then "Options:\n" + OptionLines(prefix, options) else ""
  }

  /** "Commands:" and the sub-command lines in map order, when there are sub-commands. */
  function CommandsSection(commands: map<string, Command>): string {
    if |commands| > 0 then "Commands:\n" + CommandLines(SortedKeys(commands.Keys), commands) else ""
  }

  /** A command with no options, arguments or sub-commands gets just the two lines. */
  lemma HelpOfBareCommand(prefix: char, progname: string, cmd: Command)
    requires |cmd.options| == 0 && |cmd.arguments| == 0 && |cmd.commands| == 0
    ensures HelpText(prefix, progname, cmd) == "Usage: " + progname + "\n" + cmd.description + "\n"
  {
  }

  /** The help text starts with the usage line, whatever the command. */
  lemma HelpStartsWithUsage(prefix: char, progname: string, cmd: Command)
    ensures HelpText(prefix, progname, cmd)[..7 + |progname|] == "Usage: " + progname
  {
  }

  /** The usage line, argument by argument. */
  method FormatUsage(progname: string, cmd: Command) returns (output: string)
    ensures output == UsageLine(progname, cmd)
  {
    output := "Usage: " + progname;
    if |cmd.options| > 0 {
      output := output + " [options]";
    }
    ghost var head := output;
    var k := 0;
    while k < |cmd.arguments|
      invariant 0 <= k <= |cmd.arguments|
      invariant output == head + ArgumentsUsage(cmd.arguments[..k])
    {
      assert cmd.arguments[..k + 1][..k] == cmd.arguments[..k];
      output := output + " [" + cmd.arguments[k].name + "]";
      k := k + 1;
    }
    assert cmd.arguments[..k] == cmd.arguments;
    if |cmd.commands| > 0 {
      output := output + " <command>";
    }
    output := output + "\n";
  }

  /** The option lines, one `formatOption` call per option. */
  method FormatOptions(prefix: char, options: seq<Option>) returns (output: string)
    ensures output == OptionLines(prefix, options)
  {
    output := "";
    var j := 0;
    while j < |options|
      invariant 0 <= j <= |options|
      invariant output == OptionLines(prefix, options[..j])
    {
      assert options[..j + 1][..j] == options[..j];
      var line := FormatOption(prefix, options[j]);
      output := output + line;
      j := j + 1;
    }
    assert options[..j] == options;
  }

  /** The sub-command lines, in map order. */
  method FormatCommands(commands: map<string, Command>) returns (output: string)
    ensures output == CommandLines(SortedKeys(commands.Keys), commands)
  {
    output := FormatCommandLines(SortedKeys(commands.Keys), commands);
  }

  /** The loop over the sub-commands, given their names in order. */
  method FormatCommandLines(keys: seq<string>, commands: map<string, Command>) returns (output: string)
    requires forall i :: 0 <= i < |keys| ==> keys[i] in commands
    ensures output == CommandLines(keys, commands)
  {
    output := "";
    var j := 0;
    while j < |keys|
      invariant 0 <= j <= |keys|
      invariant output == CommandLines(keys[..j], commands)
    {
      assert keys[..j + 1][..j] == keys[..j];
      var name := keys[j];
      output := output + ("  " + PadRight(name, 16) + commands[name].description + "\n");
      j := j + 1;
    }
    assert keys[..j] == keys;
  }

  /** `HelpFormatter::operator()`. */
  method FormatHelp(prefix: char, progname: string, cmd: Command) returns (output: string)
    ensures output == HelpText(prefix, progname, cmd)
  {
    var usage := FormatUsage(progname, cmd);
    var optionPart := "";
    if |cmd.options| > 0 {
      var lines := FormatOptions(prefix, cmd.options);
      optionPart := "Options:\n" + lines;
    }
    var commandPart := "";
    if |cmd.commands| > 0 {
      var lines := FormatCommands(cmd.commands);
      commandPart := "Commands:\n" + lines;
    }
    output := usage + cmd.description + "\n" + optionPart + commandPart;
  }

  // ---------------------------------------------------------------- version, ready-made options

  /** `VersionPrinter::operator()`: name, a space, the version, end of line. */
  function VersionText(appName: string, version: string): (t: string)
    ensures |t| == |appName| + |version| + 2
    ensures t[..|appName|] == appName && t[|appName|] == ' '
    ensures t[|appName| + 1..|t| - 1] == version && t[|t| - 1] == '\n'
  {
    appName + " " + version + "\n"
  }

  /** `Parser::printVersion`: the option "-v"/"--version" that takes no value. */
  function PrintVersionOption(appName: string, version: string): (o: Option)
    ensures o.WellFormed() && o.names == ["v", "version"] && o.expects == NotRequired
    ensures o.callback == PrintVersion(appName, version)
  {
    Option(["v", "version"], "Print version", NotRequired, PrintVersion(appName, version))
  }

  /** `Parser::printHelp`: the option "-h"/"--help" that takes an optional command name. */
  function PrintHelpOption(): (o: Option)
    ensures o.WellFormed() && o.names == ["h", "help"] && o.expects == Optional && o.callback == PrintHelp
  {
    Option(["h", "help"], "Print help", Optional, PrintHelp)
  }

  /** `Parser::printVersionCmd`: the sub-command "version". */
  function PrintVersionCommand(appName: string, version: string): (entry: (string, Command))
    ensures entry.0 == "version" && entry.1.WellFormed()
    ensures entry.1.action == PrintVersionAction(appName, version)
    ensures |entry.1.options| == 0 && |entry.1.commands| == 0 && |entry.1.arguments| == 0
  {
    ("version", SimpleCommand("Print version", PrintVersionAction(appName, version)))
  }

  /** `Parser::printHelpCmd`: the sub-command "help". */
  function PrintHelpCommand(): (entry: (string, Command))
    ensures entry.0 == "help" && entry.1.WellFormed() && entry.1.action == PrintHelpAction
    ensures |entry.1.options| == 0 && |entry.1.commands| == 0 && |entry.1.arguments| == 0
  {
    ("help", SimpleCommand("Print help", PrintHelpAction))
  }

  /** Running an action: the version command prints its line; the help command prints
      nothing (its printer call is commented out); user actions run on memory. */
  function RunAction(action: Action, mem: Memory): (r: (Result<(), Error>, Memory))
    ensures !action.UserAction? ==> r.0 == Ok(()) && r.1.cells == mem.cells
    ensures !action.UserAction? ==> |mem.stdout| <= |r.1.stdout| && r.1.stdout[..|mem.stdout|] == mem.stdout
    ensures !action.UserAction? ==> (r.1.stdout != mem.stdout <==> action.PrintVersionAction?)
  {
    match action
    case Idle => (Ok(()), mem)
    case PrintVersionAction(appName, version) => (Ok(()), mem.(stdout := mem.stdout + VersionText(appName, version)))
    case PrintHelpAction => (Ok(()), mem)
    case UserAction(run) => run(mem)
  }
}
