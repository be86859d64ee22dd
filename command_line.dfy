/**
 * `clime::Parser` (include/clime/parser.hpp, src/parser.cpp): the option prefix, the value
 * separator and the root command, whose fields the fluent setters and `swap` assign in place,
 * and `parse`, which resolves a token vector to the action of the command it names.
 */
module CommandLine {
  import opened Wrappers
  import opened ErrorCategory
  import opened Declarations
  import opened Bindings
  import opened Dispatcher

  class Parser {
    var prefix: char
    var separator: char
    /** The root command: description, options, sub-commands and arguments of the program. */
    var defaultAction: Command

    /** `Parser(appDescription)`: default prefix and separator, a root command with the
        description and the idle action. */
    constructor(appDescription: string)
      ensures prefix == DefaultPrefix && separator == DefaultValueSeparator
      ensures defaultAction == Command(appDescription, Idle, [], map[], [])
    {
      prefix := DefaultPrefix;
      separator := DefaultValueSeparator;
      defaultAction := Command(appDescription, Idle, [], map[], []);
    }

    /** `Parser(appDescription, options)`: as above, with the root's options. */
    constructor WithOptions(appDescription: string, options: seq<Option>)
      ensures prefix == DefaultPrefix && separator == DefaultValueSeparator
      ensures defaultAction == Command(appDescription, Idle, options, map[], [])
    {
      prefix := DefaultPrefix;
      separator := DefaultValueSeparator;
      defaultAction := Command(appDescription, Idle, options, map[], []);
    }

    /** The parser as its callbacks see it. */
    function View(): ParserView
      reads this
    {
      ParserView(prefix, separator, defaultAction)
    }

    // The getters read the root command.

    function Description(): string reads this { defaultAction.description }
    function Options(): seq<Option> reads this { defaultAction.options }
    function Commands(): map<string, Command> reads this { defaultAction.commands }
    function Arguments(): seq<Argument> reads this { defaultAction.arguments }

    /** `optionPrefix(c)`: replaces the prefix, nothing else. */
    method SetOptionPrefix(c: char)
      modifies this
      ensures View() == old(View()).(prefix := c)
    {
      prefix := c;
    }

    /** `valueSeparator(c)`: replaces the separator, nothing else. */
    method SetValueSeparator(c: char)
      modifies this
      ensures View() == old(View()).(separator := c)
    {
      separator := c;
    }

    /** `description(d)`: sets the root command's description; every other getter reads
        what it read before. */
    method SetDescription(d: string)
      modifies this
      ensures Description() == d
      ensures View() == old(View()).(root := old(defaultAction).(description := d))
    {
      defaultAction := defaultAction.(description := d);
    }

    /** `options(list)`: sets the root command's options. */
    method SetOptions(list: seq<Option>)
      modifies this
      ensures Options() == list
      ensures View() == old(View()).(root := old(defaultAction).(options := list))
    {
      defaultAction := defaultAction.(options := list);
    }

    /** `commands(list)`: sets the root command's sub-commands from the pairs. */
    method SetCommands(pairs: seq<(string, Command)>)
      modifies this
      ensures Commands() == DictOf(pairs)
      ensures View() == old(View()).(root := old(defaultAction).(commands := DictOf(pairs)))
    {
      defaultAction := defaultAction.(commands := DictOf(pairs));
    }

    /** `arguments(list)`: sets the root command's positional arguments. */
    method SetArguments(list: seq<Argument>)
      modifies this
      ensures Arguments() == list
      ensures View() == old(View()).(root := old(defaultAction).(arguments := list))
    {
      defaultAction := defaultAction.(arguments := list);
    }

    /** `defaultAction(f)`: sets the root command's action. */
    method SetDefaultAction(a: Action)
      modifies this
      ensures View() == old(View()).(root := old(defaultAction).(action := a))
    {
      defaultAction := defaultAction.(action := a);
    }

    /** `Parser::swap`: exchanges prefix, separator and root command. */
    method Swap(rhs: Parser)
      modifies this, rhs
      ensures View() == old(rhs.View()) && rhs.View() == old(View())
    {
      prefix, rhs.prefix := rhs.prefix, prefix;
      separator, rhs.separator := rhs.separator, separator;
      defaultAction, rhs.defaultAction := rhs.defaultAction, defaultAction;
    }

    /** `Parser::parse`: the parser itself is not changed; the callbacks change `env`. */
    method Parse(args: seq<Optional<string>>, env: Environment) returns (r: Result<Action, Error>)
      requires defaultAction.WellFormed()
      modifies env
      ensures (r, env.State()) == Resolve(View(), args, old(env.State()))
    {
      if |args| == 0 {
        if |defaultAction.arguments| == 0 && |defaultAction.commands| == 0 {
          return Ok(defaultAction.action);
        }
        return Fail(InvalidNumberOfArgs, "Not enough arguments");
      }
      r := ParseCommand(defaultAction, Context(args, 1, TextOf(args[0]), View()), env);
    }
  }

  /** Swapping two parsers twice leaves both as they were. */
  method SwapParsersTwice(a: Parser, b: Parser)
    modifies a, b
    ensures a.View() == old(a.View()) && b.View() == old(b.View())
  {
    a.Swap(b);
    a.Swap(b);
  }
}
