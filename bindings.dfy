/**
 * What the callbacks of options and arguments do (src/arguments.cpp, src/helpPrinter.cpp):
 * typed stores with conversion, the help and version options, and user callbacks.
 *
 * `OptionMatch` and `ArgumentMatch` specify a call on the memory before and after;
 * `Environment` is that memory as a mutable object, whose methods perform the calls.
 */
module Bindings {
  import opened Wrappers
  import opened ErrorCategory
  import opened ParseUtils
  import opened Declarations
  import opened HelpPrinter

  /** The memory after writing `v` to `slot`. */
  function Write(mem: Memory, slot: Slot, v: Value): Memory {
    mem.(cells := mem.cells[slot := v])
  }

  /**
   * Storing `text` through a destination: a text variable takes it as is
   * (`*dest = value`); an integer variable takes its conversion, and a failed conversion
   * is `OptionParsing` tagged with the name being parsed (`parseIntArgument`); a boolean
   * variable takes its conversion, and a failed conversion is the converter's own error
   * (`parseBoolean`). A failed conversion writes nothing.
   */
  function Store(dest: Destination, text: string, name: string, mem: Memory): (r: (Optional<Error>, Memory))
    ensures r.0.None? ==> exists v :: r.1 == Write(mem, dest.slot, v)
    ensures r.0.Some? ==> r.1 == mem
    ensures dest.TextDest? ==> r == (None, Write(mem, dest.slot, TextValue(text)))
    ensures dest.IntDest? && r.0.Some? ==> r.0.value == MakeParserError(OptionParsing, name)
    ensures dest.BoolDest? && r.0.Some? ==> r.0.value == ConversionError()
  {
    match dest
    case TextDest(slot) => (None, Write(mem, slot, TextValue(text)))
    case IntDest(width, slot) =>
      var val := TryParseInt(width, text);
      if val.Ok? then (None, Write(mem, slot, IntValue(val.value)))
      else (Some(MakeParserError(OptionParsing, name)), mem)
    case BoolDest(slot) =>
      var val := TryParseBoolean(text);
      if val.Ok? then (None, Write(mem, slot, BoolValue(val.value)))
      else (Some(val.error), mem)
  }

  /** A store changes at most its own variable and never the output. */
  lemma StoreChangesOnlyItsSlot(dest: Destination, text: string, name: string, mem: Memory, other: Slot)
    requires other != dest.slot
    ensures var m := Store(dest, text, name, mem).1;
      m.stdout == mem.stdout && (other in m.cells <==> other in mem.cells) &&
      (other in mem.cells ==> m.cells[other] == mem.cells[other])
  {
  }

  /** An integer variable receives exactly the value written in decimal when it fits its
      width; otherwise the store fails with `OptionParsing` and leaves memory alone. A
      negative value for an unsigned width is first negated modulo 2^64 by `strtoull`. */
  lemma IntStoreRoundTrip(width: IntType, slot: Slot, v: int, name: string, mem: Memory)
    ensures width.IsSigned() || v >= 0 ==>
      Store(IntDest(width, slot), FormatInt(v), name, mem) ==
        if width.Min() <= v <= width.Max() then (None, Write(mem, slot, IntValue(v)))
        else (Some(MakeParserError(OptionParsing, name)), mem)
    ensures !width.IsSigned() && v < 0 ==>
      Store(IntDest(width, slot), FormatInt(v), name, mem) ==
        if -v <= UINT64_MAX && UINT64_MAX + 1 + v <= width.Max() then (None, Write(mem, slot, IntValue(UINT64_MAX + 1 + v)))
        else (Some(MakeParserError(OptionParsing, name)), mem)
  {
    if width.IsSigned() {
      SignedRoundTrip(width, v);
    } else if v >= 0 {
      UnsignedRoundTrip(width, v);
    } else {
      var m := -v;
      if m <= UINT64_MAX {
        UnsignedNegation(width, m);
      } else {
        ScanFormatted(v);
        ParseUnsignedMeaning(width, FormatInt(v));
      }
    }
  }

  /** Whether a callback can be called with this value: a text or integer store reads the
      value without checking for one, and help without a value reads the program name. */
  predicate Callable(o: Option, value: Optional<string>, ctx: Context) {
    (o.callback.StoreOption? && !o.callback.dest.BoolDest? ==> value.Some?) &&
    (o.callback.PrintHelp? && value.None? ==> |ctx.argv| > 0)
  }

  /** The help option's reply: always an error value, so that parsing stops. */
  function HelpReply(): Error {
    MakeParserError(NoError, "help")
  }

  /** The version option's reply. */
  function VersionReply(): Error {
    MakeParserError(NoError, "version")
  }

  /**
   * `Option::match`: the option's callback on the value and context.
   * A boolean store without a value writes true. The help option prints help for the root
   * command named by its value, or for the root command under the program name when it has
   * no value; a value that names no root command is Solace's invalid-input error "help".
   * The version option prints the version line.
   */
  function OptionMatch(o: Option, value: Optional<string>, ctx: Context, mem: Memory): (r: (Optional<Error>, Memory))
    requires Callable(o, value, ctx)
  {
    match o.callback
    case StoreOption(dest) =>
      if value.Some? then Store(dest, value.value, ctx.name, mem)
      else (None, Write(mem, dest.slot, BoolValue(true)))
    case PrintHelp =>
      var root := ctx.parser.root;
      if value.Some? then
        if value.value in root.commands then
          (Some(HelpReply()), mem.(stdout := mem.stdout + HelpText(ctx.parser.prefix, value.value, root.commands[value.value])))
        else
          (Some(InvalidInputFailure("help")), mem)
      else
        (Some(HelpReply()), mem.(stdout := mem.stdout + HelpText(ctx.parser.prefix, TextOf(ctx.argv[0]), root)))
    case PrintVersion(appName, version) =>
      (Some(VersionReply()), mem.(stdout := mem.stdout + VersionText(appName, version)))
    case OptionHandler(handle) =>
      handle(value, ctx.CallbackSite(), mem)
  }

  /** The help and version options always reply with an error value: `NoError` after
      printing, or invalid input for help on an unknown command (then nothing is printed). */
  lemma LibraryOptionsStopParsing(o: Option, value: Optional<string>, ctx: Context, mem: Memory)
    requires Callable(o, value, ctx) && (o.callback.PrintHelp? || o.callback.PrintVersion?)
    ensures var r := OptionMatch(o, value, ctx, mem);
      r.0.Some? && r.1.cells == mem.cells &&
      (r.0.value == InvalidInputFailure("help") <==>
        o.callback.PrintHelp? && value.Some? && value.value !in ctx.parser.root.commands) &&
      (r.0.value == InvalidInputFailure("help") ==> r.1 == mem) &&
      (r.0.value != InvalidInputFailure("help") ==> r.0.value.ParserFailure? && r.0.value.code == NoError)
  {
  }

  /** The "-v" option and the "version" sub-command print the same line, and neither
      writes a variable; the option then stops parsing with its signal. */
  lemma VersionPrintedAlike(appName: string, version: string, value: Optional<string>, ctx: Context, mem: Memory)
    ensures var byOption := OptionMatch(PrintVersionOption(appName, version), value, ctx, mem);
      var byCommand := RunAction(PrintVersionCommand(appName, version).1.action, mem);
      byOption.1 == byCommand.1 && byCommand.1.cells == mem.cells &&
      byCommand.1.stdout == mem.stdout + VersionText(appName, version) &&
      byOption.0 == Some(VersionReply()) && byCommand.0 == Ok(())
  {
  }

  /** The "help" sub-command succeeds and prints nothing. */
  lemma HelpCommandPrintsNothing(mem: Memory)
    ensures RunAction(PrintHelpCommand().1.action, mem) == (Ok(()), mem)
  {
  }

  /** Help without a value describes the whole program under its own name. */
  lemma HelpWithoutValue(ctx: Context, mem: Memory)
    requires |ctx.argv| > 0
    ensures OptionMatch(PrintHelpOption(), None, ctx, mem) ==
      (Some(HelpReply()), mem.(stdout := mem.stdout + HelpText(ctx.parser.prefix, TextOf(ctx.argv[0]), ctx.parser.root)))
  {
  }

  /** A boolean flag without a value is set to true; with a value, it takes the value's
      conversion. */
  lemma BoolFlag(names: seq<string>, description: string, slot: Slot, value: Optional<string>, ctx: Context, mem: Memory)
    ensures var o := StoreOptionFor(names, description, BoolDest(slot));
      value.None? ==> OptionMatch(o, value, ctx, mem) == (None, Write(mem, slot, BoolValue(true)))
    ensures var o := StoreOptionFor(names, description, BoolDest(slot));
      value.Some? && TryParseBoolean(value.value).Ok? ==>
        OptionMatch(o, value, ctx, mem) == (None, Write(mem, slot, BoolValue(TryParseBoolean(value.value).value)))
  {
  }

  /** `Argument::match`: the argument's callback on the token and context. */
  function ArgumentMatch(a: Argument, value: string, ctx: Context, mem: Memory): (r: (Optional<Error>, Memory))
    ensures a.callback.StoreArgument? && r.0.Some? ==> r.1 == mem
    ensures a.callback.StoreArgument? && r.0.None? ==> exists v :: r.1 == Write(mem, a.callback.dest.slot, v)
    ensures a.callback.StoreArgument? && a.callback.dest.TextDest? ==>
      r == (None, Write(mem, a.callback.dest.slot, TextValue(value)))
    ensures a.callback.StoreArgument? && a.callback.dest.IntDest? && r.0.Some? ==>
      r.0.value == MakeParserError(OptionParsing, ctx.name)
    ensures a.callback.StoreArgument? && a.callback.dest.BoolDest? && r.0.Some? ==> r.0.value == ConversionError()
  {
    match a.callback
    case StoreArgument(dest) => Store(dest, value, ctx.name, mem)
    case ArgumentHandler(handle) => handle(value, ctx.CallbackSite(), mem)
  }

  /**
   * The variables behind the typed constructors' pointers, and standard output, as one
   * object that callbacks change in place.
   */
  class Environment {
    var cells: map<Slot, Value>
    var stdout: string

    function State(): Memory
      reads this
    {
      Memory(cells, stdout)
    }

    constructor (initial: Memory)
      ensures State() == initial
    {
      cells := initial.cells;
      stdout := initial.stdout;
    }

    /** Writes a value to a variable. */
    method Assign(slot: Slot, v: Value)
      modifies this
      ensures State() == Write(old(State()), slot, v)
    {
      cells := cells[slot := v];
    }

    /** Appends to standard output. */
    method Output(text: string)
      modifies this
      ensures State() == old(State()).(stdout := old(stdout) + text)
    {
      stdout := stdout + text;
    }

    /** Takes over the memory a user callback left behind. */
    method Become(m: Memory)
      modifies this
      ensures State() == m
    {
      cells := m.cells;
      stdout := m.stdout;
    }

    /** `parseIntArgument`, `parseBoolean` and the text store. */
    method StoreThrough(dest: Destination, text: string, name: string) returns (err: Optional<Error>)
      modifies this
      ensures (err, State()) == Store(dest, text, name, old(State()))
    {
      match dest
      case TextDest(slot) =>
        Assign(slot, TextValue(text));
        err := None;
      case IntDest(width, slot) =>
        var val := TryParseInt(width, text);
        if val.Ok? {
          Assign(slot, IntValue(val.value));
          err := None;
        } else {
          err := Some(MakeParserError(OptionParsing, name));
        }
      case BoolDest(slot) =>
        var val := TryParseBoolean(text);
        if val.Ok? {
          Assign(slot, BoolValue(val.value));
          err := None;
        } else {
          err := Some(val.error);
        }
    }

    /** `Option::match`. */
    method MatchOption(o: Option, value: Optional<string>, ctx: Context) returns (err: Optional<Error>)
      requires Callable(o, value, ctx)
      modifies this
      ensures (err, State()) == OptionMatch(o, value, ctx, old(State()))
    {
      match o.callback
      case StoreOption(dest) =>
        if value.Some? {
          err := StoreThrough(dest, value.value, ctx.name);
        } else {
          Assign(dest.slot, BoolValue(true));
          err := None;
        }
      case PrintHelp =>
        var root := ctx.parser.root;
        if value.Some? {
          if value.value in root.commands {
            var text := FormatHelp(ctx.parser.prefix, value.value, root.commands[value.value]);
            Output(text);
            err := Some(HelpReply());
          } else {
            err := Some(InvalidInputFailure("help"));
          }
        } else {
          var text := FormatHelp(ctx.parser.prefix, TextOf(ctx.argv[0]), root);
          Output(text);
          err := Some(HelpReply());
        }
      case PrintVersion(appName, version) =>
        Output(appName + " " + version + "\n");
        err := Some(VersionReply());
      case OptionHandler(handle) =>
        var r := handle(value, ctx.CallbackSite(), State());
        Become(r.1);
        err := r.0;
    }

    /** `Argument::match`. */
    method MatchArgument(a: Argument, value: string, ctx: Context) returns (err: Optional<Error>)
      modifies this
      ensures (err, State()) == ArgumentMatch(a, value, ctx, old(State()))
    {
      match a.callback
      case StoreArgument(dest) =>
        err := StoreThrough(dest, value, ctx.name);
      case ArgumentHandler(handle) =>
        var r := handle(value, ctx.CallbackSite(), State());
        Become(r.1);
        err := r.0;
    }
  }
}
