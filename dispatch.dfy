/**
 * Positional arguments and command dispatch (src/parser.cpp): `parseArguments`,
 * `parseCommand` and `Parser::parse`.
 */
module Dispatcher {
  import opened Wrappers
  import opened ErrorCategory
  import opened Declarations
  import opened Bindings
  import opened Engine

  // ---------------------------------------------------------------- parseArguments

  /** Whether the last declared argument is the trailing one. */
  predicate EndsWithTrailing(arguments: seq<Argument>) {
    |arguments| > 0 && arguments[|arguments| - 1].IsTrailing()
  }

  /**
   * The binding loop of `parseArguments` from argument `i` and token `pos`: each token goes
   * to argument `i`'s callback, named after the argument; the argument index then moves on,
   * except that it stays on a trailing last argument. A null token is `InvalidInput`, the
   * first callback error is returned as is, and success requires every token to be bound.
   */
  function BindFrom(ctx: Context, arguments: seq<Argument>, trailing: bool, i: nat, pos: nat, mem: Memory): (r: (Result<nat, Error>, Memory))
    requires pos <= |ctx.argv|
    ensures r.0.Ok? ==> r.0.value == |ctx.argv|
    decreases |ctx.argv| - pos
  {
    if !(i < |arguments| && pos < |ctx.argv|) then
      (if |ctx.argv| == pos then Ok(pos) else Fail(InvalidNumberOfArgs, "Not enough arguments"), mem)
    else if ctx.argv[pos].None? then
      (Fail(InvalidInput, "null string as input"), mem)
    else
      var target := arguments[i];
      var call := ArgumentMatch(target, ctx.argv[pos].value, ctx.WithOffsetAndName(pos, target.name), mem);
      if call.0.Some? then (Err(call.0.value), call.1)
      else
        var next := if i + 1 < |arguments| then i + 1 else if !trailing then i + 1 else i;
        BindFrom(ctx, arguments, trailing, next, pos + 1, call.1)
  }

  /**
   * `parseArguments`: without a trailing last argument the number of tokens from the
   * offset must equal the number of arguments ("Not enough arguments" / "Too many
   * arguments", both `InvalidNumberOfArgs`); with one, no count is checked.
   */
  function BindArguments(ctx: Context, arguments: seq<Argument>, mem: Memory): (r: (Result<nat, Error>, Memory))
    requires ctx.offset <= |ctx.argv|
    ensures r.0.Ok? ==> r.0.value == |ctx.argv|
  {
    var trailing := EndsWithTrailing(arguments);
    var nb := |ctx.argv| - ctx.offset;
    if nb < |arguments| && !trailing then (Fail(InvalidNumberOfArgs, "Not enough arguments"), mem)
    else if !trailing && nb > |arguments| then (Fail(InvalidNumberOfArgs, "Too many arguments"), mem)
    else BindFrom(ctx, arguments, trailing, 0, ctx.offset, mem)
  }

  /** Without a trailing argument, exactly one token per argument is accepted; any other
      count is rejected before a callback runs. */
  lemma ArityWithoutTrailing(ctx: Context, arguments: seq<Argument>, mem: Memory)
    requires ctx.offset <= |ctx.argv| && !EndsWithTrailing(arguments)
    ensures |ctx.argv| - ctx.offset < |arguments| ==>
      BindArguments(ctx, arguments, mem) == (Fail(InvalidNumberOfArgs, "Not enough arguments"), mem)
    ensures |ctx.argv| - ctx.offset > |arguments| ==>
      BindArguments(ctx, arguments, mem) == (Fail(InvalidNumberOfArgs, "Too many arguments"), mem)
    ensures BindArguments(ctx, arguments, mem).0.Ok? ==> |ctx.argv| - ctx.offset == |arguments|
  {
  }

  /** The argument the token `k` places after the offset is bound to: the `k`-th, or the
      trailing last argument for every token from the last position on. */
  function ArgumentFor(arguments: seq<Argument>, k: nat): (a: Argument)
    requires |arguments| > 0
    ensures k >= |arguments| - 1 ==> a == arguments[|arguments| - 1]
    ensures k < |arguments| ==> a == arguments[k]
  {
    arguments[if k < |arguments| then k else |arguments| - 1]
  }

  /** A reference reading of binding: each token from `pos` on, in order, runs the callback
      of `ArgumentFor` its position, until the first error. */
  function BindEach(ctx: Context, arguments: seq<Argument>, pos: nat, mem: Memory): (r: (Result<nat, Error>, Memory))
    requires |arguments| > 0 && ctx.offset <= pos <= |ctx.argv|
    decreases |ctx.argv| - pos
  {
    if pos == |ctx.argv| then (Ok(pos), mem)
    else if ctx.argv[pos].None? then (Fail(InvalidInput, "null string as input"), mem)
    else
      var a := ArgumentFor(arguments, pos - ctx.offset);
      var call := ArgumentMatch(a, ctx.argv[pos].value, ctx.WithOffsetAndName(pos, a.name), mem);
      if call.0.Some? then (Err(call.0.value), call.1)
      else BindEach(ctx, arguments, pos + 1, call.1)
  }

  lemma {:induction false} BindFromIsBindEach(ctx: Context, arguments: seq<Argument>, trailing: bool, i: nat, pos: nat, mem: Memory)
    requires |arguments| > 0 && ctx.offset <= pos <= |ctx.argv|
    requires trailing ==> EndsWithTrailing(arguments)
    requires !trailing ==> |ctx.argv| - ctx.offset == |arguments|
    requires i == if trailing && pos - ctx.offset >= |arguments| then |arguments| - 1 else pos - ctx.offset
    ensures BindFrom(ctx, arguments, trailing, i, pos, mem) == BindEach(ctx, arguments, pos, mem)
    decreases |ctx.argv| - pos
  {
    if pos < |ctx.argv| && ctx.argv[pos].Some? {
      var a := arguments[i];
      assert a == ArgumentFor(arguments, pos - ctx.offset);
      var call := ArgumentMatch(a, ctx.argv[pos].value, ctx.WithOffsetAndName(pos, a.name), mem);
      if call.0.None? {
        var next := if i + 1 < |arguments| then i + 1 else if !trailing then i + 1 else i;
        BindFromIsBindEach(ctx, arguments, trailing, next, pos + 1, call.1);
      }
    }
  }

  /**
   * Binding is the reference reading whenever the count check passes: the token at each
   * position runs its own argument's callback, and with a trailing last argument every
   * token from the last position on runs the trailing callback, once per token, in order.
   */
  lemma BindArgumentsInOrder(ctx: Context, arguments: seq<Argument>, mem: Memory)
    requires |arguments| > 0 && ctx.offset <= |ctx.argv|
    requires EndsWithTrailing(arguments) || |ctx.argv| - ctx.offset == |arguments|
    ensures BindArguments(ctx, arguments, mem) == BindEach(ctx, arguments, ctx.offset, mem)
  {
    BindFromIsBindEach(ctx, arguments, EndsWithTrailing(arguments), 0, ctx.offset, mem);
  }

  /** With a trailing last argument no count is checked: no tokens at all bind nothing and
      succeed, even when arguments before the trailing one are left unbound. */
  lemma TrailingSkipsArity(ctx: Context, arguments: seq<Argument>, mem: Memory)
    requires EndsWithTrailing(arguments) && ctx.offset == |ctx.argv|
    ensures BindArguments(ctx, arguments, mem) == (Ok(|ctx.argv|), mem)
  {
  }

  /** `parseArguments`. */
  method ParseArguments(ctx: Context, arguments: seq<Argument>, env: Environment) returns (r: Result<nat, Error>)
    requires ctx.offset <= |ctx.argv|
    modifies env
    ensures (r, env.State()) == BindArguments(ctx, arguments, old(env.State()))
  {
    var expectsTrailingArgument := if |arguments| == 0 then false else arguments[|arguments| - 1].IsTrailing();
    var nbPositionalArguments := |ctx.argv| - ctx.offset;
    if nbPositionalArguments < |arguments| && !expectsTrailingArgument {
      return Fail(InvalidNumberOfArgs, "Not enough arguments");
    }
    if !expectsTrailingArgument && nbPositionalArguments > |arguments| {
      return Fail(InvalidNumberOfArgs, "Too many arguments");
    }
    ghost var goal := BindFrom(ctx, arguments, expectsTrailingArgument, 0, ctx.offset, env.State());
    var positionalArgument := ctx.offset;
    var i := 0;
    while i < |arguments| && positionalArgument < |ctx.argv|
      invariant positionalArgument <= |ctx.argv|
      invariant BindFrom(ctx, arguments, expectsTrailingArgument, i, positionalArgument, env.State()) == goal
      decreases |ctx.argv| - positionalArgument
    {
      if ctx.argv[positionalArgument].None? {
        return Fail(InvalidInput, "null string as input");
      }
      var targetArg := arguments[i];
      var subCntx := ctx.WithOffsetAndName(positionalArgument, targetArg.name);
      var arg := ctx.argv[positionalArgument].value;
      var maybeError := env.MatchArgument(targetArg, arg, subCntx);
      if maybeError.Some? {
        return Err(maybeError.value);
      }
      if i + 1 < |arguments| {
        i := i + 1;
      } else if !expectsTrailingArgument {
        i := i + 1;
      }
      positionalArgument := positionalArgument + 1;
    }
    if |ctx.argv| == positionalArgument {
      return Ok(positionalArgument);
    }
    return Fail(InvalidNumberOfArgs, "Not enough arguments");
  }

  // ---------------------------------------------------------------- parseCommand, Parser::parse

  /**
   * `parseCommand`: scan the command's options with the parser's prefix and separator. If
   * tokens remain, a command with sub-commands descends into the one the next token names
   * exactly ("Command not supported" otherwise); else a command with arguments binds them
   * and resolves to its action; else the tokens are unexpected. If none remain, the command
   * resolves to its action when it has neither arguments nor sub-commands or its last
   * argument is trailing, and otherwise there are not enough arguments.
   */
  function Dispatch(cmd: Command, ctx: Context, mem: Memory): (r: (Result<Action, Error>, Memory))
    requires cmd.WellFormed() && |ctx.argv| > 0 && ctx.offset <= |ctx.argv|
    decreases cmd
  {
    var scan := ScanOptions(ctx, cmd.options, ctx.parser.prefix, ctx.parser.separator, ctx.offset, mem);
    if scan.0.Err? then (Err(scan.0.error), scan.1)
    else
      var p := scan.0.value;
      if p < |ctx.argv| then
        if |cmd.commands| > 0 then
          var name := TextOf(ctx.argv[p]);
          if name !in cmd.commands then (Fail(UnexpectedValue, "Command not supported"), scan.1)
          else Dispatch(cmd.commands[name], ctx.WithOffsetAndName(p + 1, name), scan.1)
        else if |cmd.arguments| > 0 then
          var bound := BindArguments(ctx.WithOffsetAndName(p, ""), cmd.arguments, scan.1);
          if bound.0.Err? then (Err(bound.0.error), bound.1) else (Ok(cmd.action), bound.1)
        else (Fail(UnexpectedValue, "Unexpected arguments given"), scan.1)
      else if (|cmd.arguments| == 0 && |cmd.commands| == 0) || EndsWithTrailing(cmd.arguments) then
        (Ok(cmd.action), scan.1)
      else
        (Fail(InvalidNumberOfArgs, "Not enough arguments"), scan.1)
  }

  /** The command reached from `cmd` by following sub-command names. */
  ghost function Descend(cmd: Command, path: seq<string>): Optional<Command>
    decreases |path|
  {
    if path == [] then Some(cmd)
    else if path[0] in cmd.commands then Descend(cmd.commands[path[0]], path[1..])
    else None
  }

  /** Dispatch never invents an action: a success is the action of the command reached by
      some path of sub-command names. */
  lemma {:induction false} DispatchResolvesToTreeAction(cmd: Command, ctx: Context, mem: Memory)
    requires cmd.WellFormed() && |ctx.argv| > 0 && ctx.offset <= |ctx.argv|
    requires Dispatch(cmd, ctx, mem).0.Ok?
    ensures exists path :: Descend(cmd, path).Some? && Descend(cmd, path).value.action == Dispatch(cmd, ctx, mem).0.value
    decreases cmd
  {
    var scan := ScanOptions(ctx, cmd.options, ctx.parser.prefix, ctx.parser.separator, ctx.offset, mem);
    var p := scan.0.value;
    if p < |ctx.argv| && |cmd.commands| > 0 {
      var name := TextOf(ctx.argv[p]);
      var sub := cmd.commands[name];
      DispatchResolvesToTreeAction(sub, ctx.WithOffsetAndName(p + 1, name), scan.1);
      var path :| Descend(sub, path).Some? && Descend(sub, path).value.action == Dispatch(cmd, ctx, mem).0.value;
      assert ([name] + path)[1..] == path;
      assert Descend(cmd, [name] + path) == Descend(sub, path);
    } else {
      assert Descend(cmd, []) == Some(cmd);
    }
  }

  /** When the option scan consumes every token, the command resolves exactly when it has
      neither arguments nor sub-commands or its last argument is trailing. */
  lemma NoPositionalTokens(cmd: Command, ctx: Context, mem: Memory)
    requires cmd.WellFormed() && |ctx.argv| > 0 && ctx.offset <= |ctx.argv|
    requires ScanOptions(ctx, cmd.options, ctx.parser.prefix, ctx.parser.separator, ctx.offset, mem).0 == Ok(|ctx.argv|)
    ensures Dispatch(cmd, ctx, mem).0.Ok? <==>
      (|cmd.arguments| == 0 && |cmd.commands| == 0) || EndsWithTrailing(cmd.arguments)
    ensures Dispatch(cmd, ctx, mem).0.Ok? ==> Dispatch(cmd, ctx, mem).0.value == cmd.action
    ensures Dispatch(cmd, ctx, mem).0.Err? ==>
      Dispatch(cmd, ctx, mem).0.error == MakeParserError(InvalidNumberOfArgs, "Not enough arguments")
  {
  }

  /** A positional token that names no sub-command of a command that has some is
      `UnexpectedValue` "Command not supported". */
  lemma UnknownCommand(cmd: Command, ctx: Context, mem: Memory, p: nat)
    requires cmd.WellFormed() && |ctx.argv| > 0 && ctx.offset <= |ctx.argv|
    requires ScanOptions(ctx, cmd.options, ctx.parser.prefix, ctx.parser.separator, ctx.offset, mem).0 == Ok(p)
    requires p < |ctx.argv| && |cmd.commands| > 0 && TextOf(ctx.argv[p]) !in cmd.commands
    ensures Dispatch(cmd, ctx, mem).0 == Fail(UnexpectedValue, "Command not supported")
  {
  }

  /** `Parser::parse`: with no tokens at all, the root action when the root expects no
      arguments and no sub-commands; otherwise dispatch from the root at offset 1, token 0
      (the program name) being the context's name. */
  function Resolve(view: ParserView, args: seq<Optional<string>>, mem: Memory): (r: (Result<Action, Error>, Memory))
    requires view.root.WellFormed()
    ensures |args| == 0 ==> r.1 == mem
    ensures |args| == 0 ==> (r.0.Ok? <==> |view.root.arguments| == 0 && |view.root.commands| == 0)
    ensures |args| == 0 && r.0.Ok? ==> r.0.value == view.root.action
    ensures |args| == 0 && r.0.Err? ==> r.0 == Fail(InvalidNumberOfArgs, "Not enough arguments")
    ensures |args| > 0 ==> r == Dispatch(view.root, Context(args, 1, TextOf(args[0]), view), mem)
  {
    if |args| == 0 then
      if |view.root.arguments| == 0 && |view.root.commands| == 0 then (Ok(view.root.action), mem)
      else (Fail(InvalidNumberOfArgs, "Not enough arguments"), mem)
    else
      Dispatch(view.root, Context(args, 1, TextOf(args[0]), view), mem)
  }

  /** `parseCommand`. */
  method ParseCommand(cmd: Command, ctx: Context, env: Environment) returns (r: Result<Action, Error>)
    requires cmd.WellFormed() && |ctx.argv| > 0 && ctx.offset <= |ctx.argv|
    modifies env
    ensures (r, env.State()) == Dispatch(cmd, ctx, old(env.State()))
    decreases cmd
  {
    var optionsParsingResult := ParseOptions(ctx, cmd.options, ctx.parser.prefix, ctx.parser.separator, env);
    if optionsParsingResult.Err? {
      return Err(optionsParsingResult.error);
    }
    var positionalArgument := optionsParsingResult.value;
    if positionalArgument < |ctx.argv| {
      if |cmd.commands| > 0 {
        var subcmdName := TextOf(ctx.argv[positionalArgument]);
        if subcmdName !in cmd.commands {
          return Fail(UnexpectedValue, "Command not supported");
        }
        r := ParseCommand(cmd.commands[subcmdName], ctx.WithOffsetAndName(positionalArgument + 1, subcmdName), env);
      } else if |cmd.arguments| > 0 {
        var parseResult := ParseArguments(ctx.WithOffsetAndName(positionalArgument, ""), cmd.arguments, env);
        if parseResult.Err? {
          return Err(parseResult.error);
        }
        return Ok(cmd.action);
      } else {
        return Fail(UnexpectedValue, "Unexpected arguments given");
      }
    } else {
      var arguments := cmd.arguments;
      if (|arguments| == 0 && |cmd.commands| == 0) || (|arguments| > 0 && arguments[|arguments| - 1].IsTrailing()) {
        return Ok(cmd.action);
      }
      return Fail(InvalidNumberOfArgs, "Not enough arguments");
    }
  }
}
