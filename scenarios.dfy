/**
 * Whole-parser behaviour on a small calculator program: a root command with a help option
 * and a sub-command "add" binding two 32-bit operands to cells 0 and 1.
 */
module Scenarios {
  import opened Wrappers
  import opened ErrorCategory
  import opened ParseUtils
  import opened Declarations
  import opened HelpPrinter
  import opened Bindings
  import opened Engine
  import opened Dispatcher

  function AddArguments(): seq<Argument> {
    [StoreArgumentFor("x", "first operand", IntDest(Int32, 0)),
     StoreArgumentFor("y", "second operand", IntDest(Int32, 1))]
  }

  /** The "add" sub-command; its action is the user's `run`. */
  function AddCommand(run: Memory -> (Result<(), Error>, Memory)): Command {
    Command("Add two numbers", UserAction(run), [], map[], AddArguments())
  }

  function Calculator(run: Memory -> (Result<(), Error>, Memory)): ParserView {
    ParserView(DefaultPrefix, DefaultValueSeparator,
      Command("calculator", Idle, [PrintHelpOption()], map["add" := AddCommand(run)], []))
  }

  /** A non-negative numeral does not look like an option. */
  lemma NaturalIsPositional(v: nat)
    ensures |FormatInt(v)| > 0 && !StartsWith(FormatInt(v), DefaultPrefix)
  {
    DecimalDigitsShape(v);
  }

  /** "calc add x y" binds both operands and resolves to the sub-command's action. */
  lemma AddBindsOperands(run: Memory -> (Result<(), Error>, Memory), x: nat, y: nat, mem: Memory)
    requires x <= Int32.Max() && y <= Int32.Max()
    ensures Resolve(Calculator(run), [Some("calc"), Some("add"), Some(FormatInt(x)), Some(FormatInt(y))], mem) ==
      (Ok(UserAction(run)), Write(Write(mem, 0, IntValue(x)), 1, IntValue(y)))
  {
    var view := Calculator(run);
    var args := [Some("calc"), Some("add"), Some(FormatInt(x)), Some(FormatInt(y))];
    var ctx := Context(args, 1, "calc", view);
    NaturalIsPositional(x);
    NaturalIsPositional(y);
    assert ScanOptions(ctx, view.root.options, DefaultPrefix, DefaultValueSeparator, 1, mem) == (Ok(1), mem);
    var sub := ctx.WithOffsetAndName(2, "add");
    assert Dispatch(view.root, ctx, mem) == Dispatch(AddCommand(run), sub, mem);
    assert ScanOptions(sub, [], DefaultPrefix, DefaultValueSeparator, 2, mem) == (Ok(2), mem);
    var bind := sub.WithOffsetAndName(2, "");
    var mid := Write(mem, 0, IntValue(x));
    var last := Write(mid, 1, IntValue(y));
    IntStoreRoundTrip(Int32, 0, x, "x", mem);
    IntStoreRoundTrip(Int32, 1, y, "y", mid);
    assert BindFrom(bind, AddArguments(), false, 2, 4, last) == (Ok(4), last);
    assert BindFrom(bind, AddArguments(), false, 1, 3, mid) == (Ok(4), last);
    assert BindArguments(bind, AddArguments(), mem) == (Ok(4), last);
  }

  /** "calc add x" is one operand short. */
  lemma AddMissingOperand(run: Memory -> (Result<(), Error>, Memory), x: nat, mem: Memory)
    ensures Resolve(Calculator(run), [Some("calc"), Some("add"), Some(FormatInt(x))], mem) ==
      (Fail(InvalidNumberOfArgs, "Not enough arguments"), mem)
  {
    NaturalIsPositional(x);
  }

  /** A negative operand looks like an option to "add", which has none. */
  lemma NegativeOperandIsAnOption(run: Memory -> (Result<(), Error>, Memory), x: int, y: nat, mem: Memory)
    requires x < 0
    ensures Resolve(Calculator(run), [Some("calc"), Some("add"), Some(FormatInt(x)), Some(FormatInt(y))], mem) ==
      (Fail(UnexpectedValue, "Unexpected option"), mem)
  {
    NaturalIsPositional(y);
  }

  /** A first positional token naming no sub-command is rejected. */
  lemma UnknownSubcommand(run: Memory -> (Result<(), Error>, Memory), mem: Memory)
    ensures Resolve(Calculator(run), [Some("calc"), Some("sub")], mem) ==
      (Fail(UnexpectedValue, "Command not supported"), mem)
  {
  }

  /** "calc -h" prints the help of the root command under the program's name and stops
      parsing with the help signal. */
  lemma HelpFlag(run: Memory -> (Result<(), Error>, Memory), mem: Memory)
    ensures Resolve(Calculator(run), [Some("calc"), Some("-h")], mem) ==
      (Err(HelpReply()), mem.(stdout := mem.stdout + HelpText(DefaultPrefix, "calc", Calculator(run).root)))
  {
    var view := Calculator(run);
    var ctx := Context([Some("calc"), Some("-h")], 1, "calc", view);
    HelpTokenScan(view, ctx, mem);
  }

  /** The option scan of "calc -h" runs the help callback and stops with its signal. */
  lemma HelpTokenScan(view: ParserView, ctx: Context, mem: Memory)
    requires view.prefix == DefaultPrefix && view.separator == DefaultValueSeparator
    requires view.root.options == [PrintHelpOption()]
    requires ctx == Context([Some("calc"), Some("-h")], 1, "calc", view)
    ensures ScanOptions(ctx, [PrintHelpOption()], DefaultPrefix, DefaultValueSeparator, 1, mem) ==
      (Err(HelpReply()), mem.(stdout := mem.stdout + HelpText(DefaultPrefix, "calc", view.root)))
  {
    var optCtx := ctx.WithOffsetAndName(1, "h");
    var printed := mem.(stdout := mem.stdout + HelpText(DefaultPrefix, "calc", view.root));
    assert SplitOption("-h", DefaultPrefix, DefaultValueSeparator) == ("h", None);
    assert !Lookahead(ctx, DefaultPrefix, DefaultValueSeparator, 1);
    HelpWithoutValue(optCtx, mem);
    assert MatchAll([PrintHelpOption()], "h", None, optCtx, Scan(None, 1, false, 0, mem)) ==
      Scan(Some(HelpReply()), 1, false, 1, printed);
  }

  /** The program without any token after its name needs a sub-command. */
  lemma NameOnly(run: Memory -> (Result<(), Error>, Memory), mem: Memory)
    ensures Resolve(Calculator(run), [Some("calc")], mem) ==
      (Fail(InvalidNumberOfArgs, "Not enough arguments"), mem)
  {
  }
}
