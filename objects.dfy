/**
 * The parser's declaration objects as the header defines them (include/clime/parser.hpp):
 * `Option`, `Argument` and `Command` are objects whose fields `swap` exchanges in place
 * and, for `Command`, whose fluent setters assign in place. Each object's current value is
 * the corresponding declaration datatype, which the parser copies into its vectors and maps.
 */
module Objects {
  import opened Declarations

  /** A `Parser::Option` object. */
  class OptionObject {
    var names: seq<string>
    var description: string
    var expects: ArgumentValue
    var callback: OptionCallback

    /** The option's current value. */
    function Value(): Option
      reads this
    {
      Option(names, description, expects, callback)
    }

    /** The common constructor: names, description, value policy and callback. */
    constructor(o: Option)
      ensures Value() == o
    {
      names := o.names;
      description := o.description;
      expects := o.expects;
      callback := o.callback;
    }

    /** `Option::swap`: exchanges names, description, callback and policy. */
    method Swap(rhs: OptionObject)
      modifies this, rhs
      ensures Value() == old(rhs.Value()) && rhs.Value() == old(Value())
    {
      names, rhs.names := rhs.names, names;
      description, rhs.description := rhs.description, description;
      callback, rhs.callback := rhs.callback, callback;
      expects, rhs.expects := rhs.expects, expects;
    }
  }

  /** Swapping two options twice leaves both as they were. */
  method SwapOptionsTwice(a: OptionObject, b: OptionObject)
    modifies a, b
    ensures a.Value() == old(a.Value()) && b.Value() == old(b.Value())
  {
    a.Swap(b);
    a.Swap(b);
  }

  /** A `Parser::Argument` object. */
  class ArgumentObject {
    var name: string
    var description: string
    var callback: ArgumentCallback

    /** The argument's current value. */
    function Value(): Argument
      reads this
    {
      Argument(name, description, callback)
    }

    constructor(a: Argument)
      ensures Value() == a
    {
      name := a.name;
      description := a.description;
      callback := a.callback;
    }

    /** `Argument::swap`: exchanges name, description and callback. */
    method Swap(rhs: ArgumentObject)
      modifies this, rhs
      ensures Value() == old(rhs.Value()) && rhs.Value() == old(Value())
    {
      name, rhs.name := rhs.name, name;
      description, rhs.description := rhs.description, description;
      callback, rhs.callback := rhs.callback, callback;
    }
  }

  /** A `Parser::Command` object. */
  class CommandObject {
    var description: string
    var action: Action
    var options: seq<Option>
    var commands: map<string, Command>
    var arguments: seq<Argument>

    /** The command's current value. */
    function Value(): Command
      reads this
    {
      Command(description, action, options, commands, arguments)
    }

    /** The constructors taking a description, an action and optionally arguments and
        options; the command starts without sub-commands. */
    constructor(description: string, action: Action, arguments: seq<Argument>, options: seq<Option>)
      ensures Value() == Command(description, action, options, map[], arguments)
    {
      this.description := description;
      this.action := action;
      this.options := options;
      this.commands := map[];
      this.arguments := arguments;
    }

    /** `Command::swap`: exchanges description, action, options, sub-commands and
        arguments. */
    method Swap(rhs: CommandObject)
      modifies this, rhs
      ensures Value() == old(rhs.Value()) && rhs.Value() == old(Value())
    {
      description, rhs.description := rhs.description, description;
      action, rhs.action := rhs.action, action;
      options, rhs.options := rhs.options, options;
      commands, rhs.commands := rhs.commands, commands;
      arguments, rhs.arguments := rhs.arguments, arguments;
    }

    /** `description(d)`: replaces the description and nothing else. */
    method SetDescription(d: string)
      modifies this
      ensures Value() == old(Value()).(description := d)
    {
      description := d;
    }

    /** `options(list)`: replaces the options and nothing else. */
    method SetOptions(list: seq<Option>)
      modifies this
      ensures Value() == old(Value()).(options := list)
    {
      options := list;
    }

    /** `commands(list)`: replaces the sub-commands by the map built from the pairs. */
    method SetCommands(pairs: seq<(string, Command)>)
      modifies this
      ensures Value() == old(Value()).(commands := DictOf(pairs))
    {
      commands := DictOf(pairs);
    }

    /** `arguments(list)`: replaces the positional arguments and nothing else. */
    method SetArguments(list: seq<Argument>)
      modifies this
      ensures Value() == old(Value()).(arguments := list)
    {
      arguments := list;
    }

    /** `action(f)`: replaces the action and nothing else. */
    method SetAction(a: Action)
      modifies this
      ensures Value() == old(Value()).(action := a)
    {
      action := a;
    }
  }

  /** Fluent setters on different fields commute and each is read back by its getter. */
  method DescribeThenAct(c: CommandObject, d: string, a: Action)
    modifies c
    ensures c.description == d && c.action == a
    ensures c.Value() == old(c.Value()).(description := d, action := a)
  {
    c.SetDescription(d);
    c.SetAction(a);
  }
}
