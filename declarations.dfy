/**
 * The declarations a command line is parsed against (include/clime/parser.hpp,
 * src/arguments.cpp): options, positional arguments, commands with sub-commands, and the
 * context handed to every callback.
 *
 * `Option`, `Argument` and `Command` are values: the library stores them by copy in
 * vectors and maps. The memory callbacks write into (the variables behind the typed
 * constructors' pointers, and standard output) is `Memory`.
 */
module Declarations {
  import opened Wrappers
  import opened ErrorCategory
  import opened ParseUtils

  /** `Parser::DefaultPrefix`. */
  const DefaultPrefix: char := '-'
  /** `Parser::DefaultValueSeparator`. */
  const DefaultValueSeparator: char := '='

  // ---------------------------------------------------------------- memory seen by callbacks

  /** Address of a variable a typed option or argument writes to. */
  type Slot = nat

  /** What a variable holds after a callback stored into it. */
  datatype Value = TextValue(text: string) | IntValue(number: int) | BoolValue(flag: bool)

  /** The variables callbacks write to, and what has been written to standard output. */
  datatype Memory = Memory(cells: map<Slot, Value>, stdout: string)

  /** The variable behind a typed constructor's pointer, with the type it converts to. */
  datatype Destination =
    | TextDest(slot: Slot)
    | IntDest(width: IntType, slot: Slot)
    | BoolDest(slot: Slot)

  // ---------------------------------------------------------------- options and arguments

  /** `Parser::ArgumentValue`: whether an option takes a value. */
  datatype ArgumentValue = Required | Optional | NotRequired

  /** What a user callback sees of the context: the tokens, its offset and the name it was
      matched under (the parser itself is not passed to user callbacks in this model). */
  datatype Site = Site(argv: seq<Optional<string>>, offset: nat, name: string)

  /** The callback of an option: one of the library's own, or a user function that may
      read and change memory. */
  datatype OptionCallback =
    | StoreOption(dest: Destination)
    | PrintHelp
    | PrintVersion(appName: string, version: string)
    | OptionHandler(handle: (Optional<string>, Site, Memory) -> (Optional<Error>, Memory))

  /** The callback of a positional argument. */
  datatype ArgumentCallback =
    | StoreArgument(dest: Destination)
    | ArgumentHandler(handle: (string, Site, Memory) -> (Optional<Error>, Memory))

  /** `Parser::Option`: names (without prefix), description, value policy and callback. */
  datatype Option = Option(names: seq<string>, description: string, expects: ArgumentValue, callback: OptionCallback) {

    /** A store into a text or integer variable reads the value unconditionally, so it
        needs the `Required` policy (as every typed constructor gives it). */
    predicate WellFormed() {
      callback.StoreOption? && !callback.dest.BoolDest? ==> expects == Required
    }

    /** `Option::isMatch`: whether one of the option's names is `argName`. */
    method IsMatch(argName: string) returns (matched: bool)
      ensures matched <==> argName in names
    {
      var k := 0;
      while k < |names|
        invariant 0 <= k <= |names|
        invariant argName !in names[..k]
      {
        if names[k] == argName {
          return true;
        }
        k := k + 1;
      }
      assert names[..k] == names;
      return false;
    }
  }

  /** `Parser::Argument`: a positional argument. */
  datatype Argument = Argument(name: string, description: string, callback: ArgumentCallback) {

    /** `Argument::isTrailing`: the argument named "*" takes every remaining token. */
    predicate IsTrailing() {
      name == "*"
    }
  }

  /** The typed option constructors: a boolean option takes an optional value, every other
      type requires one. */
  function StoreOptionFor(names: seq<string>, description: string, dest: Destination): (o: Option)
    ensures o.WellFormed() && o.callback == StoreOption(dest) && o.names == names
    ensures o.expects == if dest.BoolDest? then Optional else Required
  {
    Option(names, description, if dest.BoolDest? then Optional else Required, StoreOption(dest))
  }

  /** The typed argument constructors. */
  function StoreArgumentFor(name: string, description: string, dest: Destination): (a: Argument)
    ensures a.callback == StoreArgument(dest) && a.name == name
    ensures a.IsTrailing() <==> name == "*"
  {
    Argument(name, description, StoreArgument(dest))
  }

  // ---------------------------------------------------------------- commands

  /** `Command::Action`, the result of a successful parse. The library's own actions are
      named; a user action is a function over memory. */
  datatype Action =
    | Idle
    | PrintVersionAction(appName: string, version: string)
    | PrintHelpAction
    | UserAction(run: Memory -> (Result<(), Error>, Memory))

  /** `Parser::Command`: description, action, options, named sub-commands and positional
      arguments. */
  datatype Command = Command(
    description: string,
    action: Action,
    options: seq<Option>,
    commands: map<string, Command>,
    arguments: seq<Argument>)
  {
    /** Every option of this command and of every sub-command is well formed. */
    predicate WellFormed()
      decreases this
    {
      (forall i :: 0 <= i < |options| ==> options[i].WellFormed()) &&
      (forall k :: k in commands ==> commands[k].WellFormed())
    }
  }

  /** A command with only a description and an action, as the two-argument constructor
      builds it. */
  function SimpleCommand(description: string, action: Action): (c: Command)
    ensures c.WellFormed() && c.description == description && c.action == action
    ensures |c.options| == 0 && |c.commands| == 0 && |c.arguments| == 0
  {
    Command(description, action, [], map[], [])
  }

  /** The map built from an initializer list of pairs, as `std::map` builds it: the first
      pair with a given key wins. */
  function DictOf(pairs: seq<(string, Command)>): (m: map<string, Command>)
    ensures forall k :: k in m <==> exists i :: 0 <= i < |pairs| && pairs[i].0 == k
    ensures forall i :: 0 <= i < |pairs| ==> pairs[i].0 in m
    decreases |pairs|
  {
    if pairs == [] then map[]
    else
      var rest := DictOf(pairs[1..]);
      assert forall i :: 1 <= i < |pairs| ==> pairs[1..][i - 1] == pairs[i];
      rest[pairs[0].0 := pairs[0].1]
  }

  /** The value `DictOf` keeps for a key is that of the first pair carrying it. */
  lemma {:induction false} DictOfFirstWins(pairs: seq<(string, Command)>, i: nat)
    requires i < |pairs|
    requires forall j :: 0 <= j < i ==> pairs[j].0 != pairs[i].0
    ensures DictOf(pairs)[pairs[i].0] == pairs[i].1
    decreases i
  {
    if i > 0 {
      assert pairs[0].0 != pairs[i].0;
      DictOfFirstWins(pairs[1..], i - 1);
    }
  }

  /** Sub-commands built from well-formed commands are well formed. */
  lemma DictOfWellFormed(pairs: seq<(string, Command)>)
    requires forall i :: 0 <= i < |pairs| ==> pairs[i].1.WellFormed()
    ensures forall k :: k in DictOf(pairs) ==> DictOf(pairs)[k].WellFormed()
    decreases |pairs|
  {
    if pairs != [] {
      assert forall i :: 1 <= i < |pairs| ==> pairs[1..][i - 1] == pairs[i];
      DictOfWellFormed(pairs[1..]);
    }
  }

  // ---------------------------------------------------------------- parsing context

  /** What the parser passes of itself to its own callbacks: prefix, separator and the
      root command. */
  datatype ParserView = ParserView(prefix: char, separator: char, root: Command)

  /** `Parser::Context`: the tokens, the current offset into them, the name being parsed,
      and the parser. */
  datatype Context = Context(argv: seq<Optional<string>>, offset: nat, name: string, parser: ParserView) {

    function WithOffsetAndName(newOffset: nat, newName: string): Context {
      this.(offset := newOffset, name := newName)
    }

    /** The part of the context a user callback receives. */
    function CallbackSite(): Site {
      Site(argv, offset, name)
    }
  }

  /** A token read as a string view without a null check: a null token reads as empty. */
  function TextOf(token: Optional<string>): string {
    if token.Some? then token.value else ""
  }

  /** `StringView::startsWith(char)`. */
  predicate StartsWith(s: string, c: char) {
    |s| > 0 && s[0] == c
  }
}
