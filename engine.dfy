/**
 * The matching and dispatch engine (src/parser.cpp): splitting an option token, scanning
 * the option tokens of one command, binding positional arguments, and descending the
 * sub-command tree to the action a command line resolves to.
 *
 * Each step is specified by a function over the memory before and after (`SplitOption`,
 * `ScanOptions`, `BindArguments`, `Dispatch`, `Resolve`); the methods perform the same
 * steps on an `Environment` and are proved to agree with them.
 */
module Engine {
  import opened Wrappers
  import opened ErrorCategory
  import opened Declarations
  import opened Bindings

  // ---------------------------------------------------------------- parseOption

  /** Index of the first `c` in `s`, or `|s|` when there is none. */
  function IndexOf(s: string, c: char): (k: nat)
    ensures k <= |s| && c !in s[..k] && (k < |s| ==> s[k] == c)
  {
    if s == [] then 0
    else if s[0] == c then 0
    else
      var k := 1 + IndexOf(s[1..], c);
      assert s[..k] == [s[0]] + s[1..][..k - 1];
      k
  }

  /** Where the name starts: after one prefix character, or after two when the second
      character is the prefix as well. */
  function NameStart(arg: string, prefix: char): nat {
    if |arg| > 1 && arg[1] == prefix then 2 else 1
  }

  /**
   * `parseOption`: the name is the text between the prefix and the first separator, the
   * value everything after that separator; with no separator there is no value, and a
   * token that is only prefix gives an empty name and no value.
   */
  function SplitOption(arg: string, prefix: char, separator: char): (r: (string, Optional<string>))
    ensures separator !in r.0
  {
    var start := NameStart(arg, prefix);
    if start >= |arg| then ("", None)
    else
      var rest := arg[start..];
      var k := IndexOf(rest, separator);
      if k < |rest| then (rest[..k], Some(rest[k + 1..])) else (rest, None)
  }

  /** Prefix, name, separator and value put back together give the token again. */
  lemma SplitOptionReassembles(arg: string, prefix: char, separator: char)
    ensures NameStart(arg, prefix) >= |arg| ==> SplitOption(arg, prefix, separator) == ("", None)
    ensures var r := SplitOption(arg, prefix, separator);
      NameStart(arg, prefix) < |arg| && r.1.Some? ==> arg == arg[..NameStart(arg, prefix)] + r.0 + [separator] + r.1.value
    ensures var r := SplitOption(arg, prefix, separator);
      NameStart(arg, prefix) < |arg| && r.1.None? ==> arg == arg[..NameStart(arg, prefix)] + r.0
  {
    var start := NameStart(arg, prefix);
    if start < |arg| {
      var k := IndexOf(arg[start..], separator);
      if k < |arg| - start {
        Cut(arg, start, k);
      } else {
        assert arg == arg[..start] + arg[start..];
      }
    }
  }

  /** A token cut around the separator at `start + k`. */
  lemma Cut(arg: string, start: nat, k: nat)
    requires start + k < |arg|
    ensures arg == arg[..start] + arg[start..][..k] + [arg[start + k]] + arg[start..][k + 1..]
  {
    var rest := arg[start..];
    assert rest[..k] == arg[start..start + k];
    assert rest[k + 1..] == arg[start + k + 1..];
    assert arg == arg[..start] + arg[start..start + k] + [arg[start + k]] + arg[start + k + 1..];
  }

  /** The long form "--name=value" splits back into its name and value, whatever the value
      holds (further separators included). */
  lemma SplitLongForm(prefix: char, separator: char, name: string, value: string)
    requires separator !in name
    ensures SplitOption([prefix, prefix] + name + [separator] + value, prefix, separator) == (name, Some(value))
  {
    var arg := [prefix, prefix] + name + [separator] + value;
    var rest := arg[2..];
    assert rest == name + [separator] + value;
    IndexOfFirst(name, separator, value);
    assert rest[..|name|] == name;
    assert rest[|name| + 1..] == value;
  }

  /** "--name" and "-n" split back into their name with no value. */
  lemma SplitFlagForms(prefix: char, separator: char, name: string)
    requires separator !in name
    ensures SplitOption([prefix, prefix] + name, prefix, separator) == (name, None)
    ensures name == [] || name[0] != prefix ==> SplitOption([prefix] + name, prefix, separator) == (name, None)
  {
    var long := [prefix, prefix] + name;
    assert long[2..] == name;
    IndexOfAbsent(name, separator);
    var short := [prefix] + name;
    if name != [] && name[0] != prefix {
      assert short[1..] == name;
    }
  }

  /** `IndexOf` is characterised by its postcondition. */
  lemma IndexOfUnique(s: string, c: char, n: nat)
    requires n <= |s| && c !in s[..n] && (n < |s| ==> s[n] == c)
    ensures IndexOf(s, c) == n
  {
  }

  lemma IndexOfFirst(name: string, c: char, tail: string)
    requires c !in name
    ensures IndexOf(name + [c] + tail, c) == |name|
  {
    var s := name + [c] + tail;
    assert s[..|name|] == name;
    IndexOfUnique(s, c, |name|);
  }

  lemma IndexOfAbsent(s: string, c: char)
    requires c !in s
    ensures IndexOf(s, c) == |s|
  {
    assert s[..|s|] == s;
    IndexOfUnique(s, c, |s|);
  }

  /** `parseOption`, advancing `endIndex` to the first separator. */
  method ParseOption(arg: string, prefix: char, separator: char) returns (name: string, value: Optional<string>)
    ensures (name, value) == SplitOption(arg, prefix, separator)
  {
    var startIndex := if |arg| > 1 && arg[1] == prefix then 2 else 1;
    if startIndex >= |arg| {
      return "", None;
    }
    var endIndex := startIndex;
    while endIndex < |arg| && arg[endIndex] != separator
      invariant startIndex <= endIndex <= |arg|
      invariant separator !in arg[startIndex..endIndex]
    {
      endIndex := endIndex + 1;
    }
    ghost var rest := arg[startIndex..];
    assert rest[..endIndex - startIndex] == arg[startIndex..endIndex];
    IndexOfUnique(rest, separator, endIndex - startIndex);
    if endIndex < |arg| {
      name, value := arg[startIndex..endIndex], Some(arg[endIndex + 1..]);
      assert rest[endIndex - startIndex + 1..] == arg[endIndex + 1..];
    } else {
      name, value := arg[startIndex..], None;
    }
  }

  // ---------------------------------------------------------------- parseOptions

  /** Every option may be handed to its callback as the scan hands it. */
  predicate AllWellFormed(options: seq<Option>) {
    forall k :: 0 <= k < |options| ==> options[k].WellFormed()
  }

  /** The state of the scan of one option token across the option list: the first error,
      the cursor, whether the looked-ahead token is still to be consumed, how many options
      matched, and memory. */
  datatype Scan = Scan(error: Optional<Error>, index: nat, consume: bool, matched: nat, mem: Memory)

  /**
   * One option of the list against the token's name: an option that does not match, or
   * any option once an error occurred, changes nothing. A match with no value and the
   * `Required` policy is `ValueExpected`. Otherwise the looked-ahead token is consumed on
   * the first match whose policy is not `NotRequired`, the match is counted, and the
   * callback runs with the value (no value for `NotRequired`).
   */
  function MatchStep(o: Option, argName: string, argValue: Optional<string>, optCtx: Context, st: Scan): (r: Scan)
    requires o.WellFormed() && |optCtx.argv| > 0
  {
    if st.error.Some? || argName !in o.names then st
    else if argValue.None? && o.expects == Required then
      st.(error := Some(MakeParserError(ValueExpected, "No value given")))
    else
      var st1 := if st.consume && o.expects != NotRequired then st.(consume := false, index := st.index + 1) else st;
      var value := if o.expects == NotRequired then None else argValue;
      var call := OptionMatch(o, value, optCtx, st1.mem);
      st1.(matched := st1.matched + 1, error := call.0, mem := call.1)
  }

  /** The inner loop of `parseOptions`: every option of the list, in order. */
  function MatchAll(options: seq<Option>, argName: string, argValue: Optional<string>, optCtx: Context, st: Scan): (r: Scan)
    requires AllWellFormed(options) && |optCtx.argv| > 0
    ensures r.index == st.index || (st.consume && r.index == st.index + 1 && !r.consume)
    ensures !st.consume ==> !r.consume
    decreases |options|
  {
    if options == [] then st
    else
      var n := |options| - 1;
      MatchStep(options[n], argName, argValue, optCtx, MatchAll(options[..n], argName, argValue, optCtx, st))
  }

  /**
   * `parseOptions` from cursor `i`: stop at the end or at the first token without the
   * prefix and give its index; a null token is `InvalidInput`. An option token without an
   * inline value takes the next token as its value when that token exists and lacks the
   * prefix. A token no option matches is `UnexpectedValue`; the first callback error is
   * returned as is.
   */
  function ScanOptions(ctx: Context, options: seq<Option>, prefix: char, separator: char, i: nat, mem: Memory): (r: (Result<nat, Error>, Memory))
    requires AllWellFormed(options) && |ctx.argv| > 0 && i <= |ctx.argv|
    ensures r.0.Ok? ==> i <= r.0.value <= |ctx.argv|
    ensures r.0.Ok? && r.0.value < |ctx.argv| ==>
      ctx.argv[r.0.value].Some? && !StartsWith(ctx.argv[r.0.value].value, prefix)
    decreases |ctx.argv| - i
  {
    if i == |ctx.argv| then (Ok(i), mem)
    else if ctx.argv[i].None? then (Fail(InvalidInput, "null string as input"), mem)
    else if !StartsWith(ctx.argv[i].value, prefix) then (Ok(i), mem)
    else
      var st := ScanToken(ctx, options, prefix, separator, i, mem);
      if st.error.Some? then (Err(st.error.value), st.mem)
      else if st.matched < 1 then (Fail(UnexpectedValue, "Unexpected option"), st.mem)
      else ScanOptions(ctx, options, prefix, separator, st.index + 1, st.mem)
  }

  /** Whether the token after `i` is taken as the value of option token `i`. */
  predicate Lookahead(ctx: Context, prefix: char, separator: char, i: nat)
    requires i < |ctx.argv| && ctx.argv[i].Some?
  {
    SplitOption(ctx.argv[i].value, prefix, separator).1.None? && i + 1 < |ctx.argv| &&
    !StartsWith(TextOf(ctx.argv[i + 1]), prefix)
  }

  /** The value offered to the options matching token `i`: inline, looked ahead, or none. */
  function OfferedValue(ctx: Context, prefix: char, separator: char, i: nat): Optional<string>
    requires i < |ctx.argv| && ctx.argv[i].Some?
  {
    if Lookahead(ctx, prefix, separator, i) then Some(TextOf(ctx.argv[i + 1]))
    else SplitOption(ctx.argv[i].value, prefix, separator).1
  }

  /** The scan of option token `i` across the whole option list. */
  function ScanToken(ctx: Context, options: seq<Option>, prefix: char, separator: char, i: nat, mem: Memory): (st: Scan)
    requires AllWellFormed(options) && |ctx.argv| > 0 && i < |ctx.argv| && ctx.argv[i].Some?
    ensures st.index == i || (st.index == i + 1 && i + 1 < |ctx.argv|)
  {
    var argName := SplitOption(ctx.argv[i].value, prefix, separator).0;
    MatchAll(options, argName, OfferedValue(ctx, prefix, separator, i), ctx.WithOffsetAndName(i, argName),
             Scan(None, i, Lookahead(ctx, prefix, separator, i), 0, mem))
  }

  lemma {:induction false} MatchAllAfterError(options: seq<Option>, argName: string, argValue: Optional<string>, optCtx: Context, st: Scan)
    requires AllWellFormed(options) && |optCtx.argv| > 0 && st.error.Some?
    ensures MatchAll(options, argName, argValue, optCtx, st) == st
    decreases |options|
  {
    if options != [] {
      MatchAllAfterError(options[..|options| - 1], argName, argValue, optCtx, st);
    }
  }

  lemma {:induction false} MatchAllSplit(a: seq<Option>, b: seq<Option>, argName: string, argValue: Optional<string>, optCtx: Context, st: Scan)
    requires AllWellFormed(a + b) && |optCtx.argv| > 0
    ensures AllWellFormed(a) && AllWellFormed(b)
    ensures MatchAll(a + b, argName, argValue, optCtx, st) ==
      MatchAll(b, argName, argValue, optCtx, MatchAll(a, argName, argValue, optCtx, st))
    decreases |b|
  {
    assert forall k :: 0 <= k < |a| ==> a[k] == (a + b)[k];
    assert forall k :: 0 <= k < |b| ==> b[k] == (a + b)[|a| + k];
    if b != [] {
      var n := |b| - 1;
      assert (a + b)[..|a + b| - 1] == a + b[..n];
      assert AllWellFormed(a + b[..n]) by {
        assert forall k :: 0 <= k < |a + b[..n]| ==> (a + b[..n])[k] == (a + b)[k];
      }
      MatchAllSplit(a, b[..n], argName, argValue, optCtx, st);
    } else {
      assert a + b == a;
    }
  }

  /** Number of options with `argName` among their names. */
  function CountMatching(options: seq<Option>, argName: string): nat
    decreases |options|
  {
    if options == [] then 0
    else CountMatching(options[..|options| - 1], argName) + (if argName in options[|options| - 1].names then 1 else 0)
  }

  /** Whether some option with `argName` among its names takes a value. */
  predicate SomeMatchTakesValue(options: seq<Option>, argName: string) {
    exists k :: 0 <= k < |options| && argName in options[k].names && options[k].expects != NotRequired
  }

  /**
   * When the scan of one token ends without error, every option carrying the name was
   * matched once, and the looked-ahead token was consumed (the cursor moved by one) exactly
   * when some matching option takes a value; it never moves by more than one.
   */
  lemma {:induction false} MatchAllCounts(options: seq<Option>, argName: string, argValue: Optional<string>, optCtx: Context, st: Scan)
    requires AllWellFormed(options) && |optCtx.argv| > 0 && st.error.None?
    requires MatchAll(options, argName, argValue, optCtx, st).error.None?
    ensures var r := MatchAll(options, argName, argValue, optCtx, st);
      r.matched == st.matched + CountMatching(options, argName) &&
      r.index == (if st.consume && SomeMatchTakesValue(options, argName) then st.index + 1 else st.index) &&
      r.consume == (st.consume && !SomeMatchTakesValue(options, argName))
    decreases |options|
  {
    if options != [] {
      var n := |options| - 1;
      var init := options[..n];
      MatchAllCounts(init, argName, argValue, optCtx, st);
      assert forall k :: 0 <= k < n ==> init[k] == options[k];
      if SomeMatchTakesValue(options, argName) && !SomeMatchTakesValue(init, argName) {
        var k :| 0 <= k < |options| && argName in options[k].names && options[k].expects != NotRequired;
        assert k == n;
      }
      if SomeMatchTakesValue(init, argName) {
        var k :| 0 <= k < |init| && argName in init[k].names && init[k].expects != NotRequired;
        assert options[k] == init[k];
      }
    }
  }

  /** A name no option carries changes nothing in the scan of its token. */
  lemma {:induction false} MatchAllNoMatch(options: seq<Option>, argName: string, argValue: Optional<string>, optCtx: Context, st: Scan)
    requires AllWellFormed(options) && |optCtx.argv| > 0
    requires forall k :: 0 <= k < |options| ==> argName !in options[k].names
    ensures MatchAll(options, argName, argValue, optCtx, st) == st
    decreases |options|
  {
    if options != [] {
      var n := |options| - 1;
      MatchAllNoMatch(options[..n], argName, argValue, optCtx, st);
    }
  }

  /** An option token whose name no option carries is `UnexpectedValue` "Unexpected
      option", and no callback runs. */
  lemma UnknownOptionRejected(ctx: Context, options: seq<Option>, prefix: char, separator: char, i: nat, mem: Memory)
    requires AllWellFormed(options) && i < |ctx.argv|
    requires ctx.argv[i].Some? && StartsWith(ctx.argv[i].value, prefix)
    requires forall k :: 0 <= k < |options| ==> SplitOption(ctx.argv[i].value, prefix, separator).0 !in options[k].names
    ensures ScanOptions(ctx, options, prefix, separator, i, mem) == (Fail(UnexpectedValue, "Unexpected option"), mem)
  {
    var argName := SplitOption(ctx.argv[i].value, prefix, separator).0;
    MatchAllNoMatch(options, argName, OfferedValue(ctx, prefix, separator, i), ctx.WithOffsetAndName(i, argName),
                    Scan(None, i, Lookahead(ctx, prefix, separator, i), 0, mem));
  }

  /** When only option `k` carries the name, the inner loop is that option's step alone. */
  lemma {:induction false} MatchAllOnly(options: seq<Option>, k: nat, argName: string, argValue: Optional<string>, optCtx: Context, st: Scan)
    requires AllWellFormed(options) && |optCtx.argv| > 0 && k < |options|
    requires forall j :: 0 <= j < |options| && j != k ==> argName !in options[j].names
    ensures MatchAll(options, argName, argValue, optCtx, st) == MatchStep(options[k], argName, argValue, optCtx, st)
  {
    var before, after := options[..k], options[k + 1..];
    assert options[..k + 1] + after == options;
    MatchAllSplit(options[..k + 1], after, argName, argValue, optCtx, st);
    assert options[..k + 1][..k] == before;
    assert forall j :: 0 <= j < |before| ==> before[j] == options[j];
    MatchAllNoMatch(before, argName, argValue, optCtx, st);
    var stepped := MatchStep(options[k], argName, argValue, optCtx, st);
    assert MatchAll(options[..k + 1], argName, argValue, optCtx, st) == stepped;
    assert forall j :: 0 <= j < |after| ==> after[j] == options[k + 1 + j];
    MatchAllNoMatch(after, argName, argValue, optCtx, stepped);
  }

  /** An option with no inline value whose next token is not an option takes that token
      as its value, even a boolean flag, when it is the only option with that name; the
      scan then resumes after the value. */
  lemma LookaheadConsumesValue(ctx: Context, options: seq<Option>, k: nat, prefix: char, separator: char, i: nat, mem: Memory)
    requires AllWellFormed(options) && k < |options| && i + 1 < |ctx.argv|
    requires options[k].expects != NotRequired
    requires ctx.argv[i].Some? && StartsWith(ctx.argv[i].value, prefix)
    requires SplitOption(ctx.argv[i].value, prefix, separator).1.None?
    requires SplitOption(ctx.argv[i].value, prefix, separator).0 in options[k].names
    requires forall j :: 0 <= j < |options| && j != k ==> SplitOption(ctx.argv[i].value, prefix, separator).0 !in options[j].names
    requires ctx.argv[i + 1].Some? && !StartsWith(ctx.argv[i + 1].value, prefix)
    requires options[k].callback.StoreOption? || options[k].callback.OptionHandler?
    requires OptionMatch(options[k], ctx.argv[i + 1], ctx.WithOffsetAndName(i, SplitOption(ctx.argv[i].value, prefix, separator).0), mem).0.None?
    ensures var call := OptionMatch(options[k], ctx.argv[i + 1], ctx.WithOffsetAndName(i, SplitOption(ctx.argv[i].value, prefix, separator).0), mem);
      ScanOptions(ctx, options, prefix, separator, i, mem) == ScanOptions(ctx, options, prefix, separator, i + 2, call.1)
  {
    var o := options[k];
    var argName := SplitOption(ctx.argv[i].value, prefix, separator).0;
    var optCtx := ctx.WithOffsetAndName(i, argName);
    assert Lookahead(ctx, prefix, separator, i);
    assert OfferedValue(ctx, prefix, separator, i) == ctx.argv[i + 1];
    var call := OptionMatch(o, ctx.argv[i + 1], optCtx, mem);
    var start := Scan(None, i, true, 0, mem);
    MatchAllOnly(options, k, argName, ctx.argv[i + 1], optCtx, start);
    assert MatchStep(o, argName, ctx.argv[i + 1], optCtx, start) == Scan(None, i + 1, false, 1, call.1);
    assert ScanToken(ctx, options, prefix, separator, i, mem) == Scan(None, i + 1, false, 1, call.1);
  }

  /** A null token at the cursor is `InvalidInput` "null string as input", and no callback
      runs. */
  lemma NullTokenRejected(ctx: Context, options: seq<Option>, prefix: char, separator: char, i: nat, mem: Memory)
    requires AllWellFormed(options) && i < |ctx.argv| && ctx.argv[i].None?
    ensures ScanOptions(ctx, options, prefix, separator, i, mem) == (Fail(InvalidInput, "null string as input"), mem)
  {
  }

  /**
   * An option token with no inline value and no looked-ahead value, whose name the first
   * option carrying it requires a value for, is `ValueExpected` "No value given"; the
   * options before it do not carry the name, so no callback runs.
   */
  lemma RequiredWithoutValue(ctx: Context, options: seq<Option>, prefix: char, separator: char, i: nat, k: nat, mem: Memory)
    requires AllWellFormed(options) && i < |ctx.argv|
    requires ctx.argv[i].Some? && StartsWith(ctx.argv[i].value, prefix)
    requires SplitOption(ctx.argv[i].value, prefix, separator).1.None? && !Lookahead(ctx, prefix, separator, i)
    requires k < |options| && options[k].expects == Required
    requires SplitOption(ctx.argv[i].value, prefix, separator).0 in options[k].names
    requires forall j :: 0 <= j < k ==> SplitOption(ctx.argv[i].value, prefix, separator).0 !in options[j].names
    ensures ScanOptions(ctx, options, prefix, separator, i, mem) == (Fail(ValueExpected, "No value given"), mem)
  {
    var argName := SplitOption(ctx.argv[i].value, prefix, separator).0;
    var optCtx := ctx.WithOffsetAndName(i, argName);
    var start := Scan(None, i, false, 0, mem);
    assert OfferedValue(ctx, prefix, separator, i) == None;
    assert AllWellFormed(options[..k]);
    MatchAllNoMatch(options[..k], argName, None, optCtx, start);
    var stopped := start.(error := Some(MakeParserError(ValueExpected, "No value given")));
    assert options[..k + 1][..k] == options[..k];
    assert MatchAll(options[..k + 1], argName, None, optCtx, start) == stopped;
    StopAt(options, k, argName, None, optCtx, start, stopped);
    assert ScanToken(ctx, options, prefix, separator, i, mem) == stopped;
  }

  /**
   * An option that takes no value runs its callback without one, whether the token had an
   * inline value or not, and leaves the next token alone when it is the only option with
   * that name: the scan resumes right after the option token.
   */
  lemma NotRequiredIgnoresValue(ctx: Context, options: seq<Option>, k: nat, prefix: char, separator: char, i: nat, mem: Memory)
    requires AllWellFormed(options) && k < |options| && i < |ctx.argv|
    requires options[k].expects == NotRequired
    requires ctx.argv[i].Some? && StartsWith(ctx.argv[i].value, prefix)
    requires SplitOption(ctx.argv[i].value, prefix, separator).0 in options[k].names
    requires forall j :: 0 <= j < |options| && j != k ==> SplitOption(ctx.argv[i].value, prefix, separator).0 !in options[j].names
    requires OptionMatch(options[k], None, ctx.WithOffsetAndName(i, SplitOption(ctx.argv[i].value, prefix, separator).0), mem).0.None?
    ensures var call := OptionMatch(options[k], None, ctx.WithOffsetAndName(i, SplitOption(ctx.argv[i].value, prefix, separator).0), mem);
      ScanOptions(ctx, options, prefix, separator, i, mem) == ScanOptions(ctx, options, prefix, separator, i + 1, call.1)
  {
    var o := options[k];
    var argName := SplitOption(ctx.argv[i].value, prefix, separator).0;
    var optCtx := ctx.WithOffsetAndName(i, argName);
    var offered := OfferedValue(ctx, prefix, separator, i);
    var call := OptionMatch(o, None, optCtx, mem);
    var start := Scan(None, i, Lookahead(ctx, prefix, separator, i), 0, mem);
    MatchAllOnly(options, k, argName, offered, optCtx, start);
    assert MatchStep(o, argName, offered, optCtx, start) == start.(matched := 1, error := None, mem := call.1);
    assert ScanToken(ctx, options, prefix, separator, i, mem).index == i;
  }

  /** The inner loop of `parseOptions`: offers the token to every option in order and
      stops at the first error. */
  method MatchOptions(options: seq<Option>, argName: string, argValue: Optional<string>, optCntx: Context,
                      index: nat, consume: bool, env: Environment)
    returns (error: Optional<Error>, i: nat, consumeValue: bool, numberMatched: nat)
    requires AllWellFormed(options) && |optCntx.argv| > 0
    modifies env
    ensures MatchAll(options, argName, argValue, optCntx, Scan(None, index, consume, 0, old(env.State()))) ==
      Scan(error, i, consumeValue, numberMatched, env.State())
  {
    ghost var start := Scan(None, index, consume, 0, env.State());
    error, i, consumeValue, numberMatched := None, index, consume, 0;
    var k := 0;
    while k < |options|
      invariant 0 <= k <= |options| && error.None?
      invariant MatchAll(options[..k], argName, argValue, optCntx, start) == Scan(error, i, consumeValue, numberMatched, env.State())
      decreases |options| - k
    {
      assert options[..k + 1][..k] == options[..k];
      error, i, consumeValue, numberMatched := MatchOption(options[k], argName, argValue, optCntx, i, consumeValue, numberMatched, env);
      if error.Some? {
        StopAt(options, k, argName, argValue, optCntx, start, Scan(error, i, consumeValue, numberMatched, env.State()));
        return;
      }
      k := k + 1;
    }
    assert options[..k] == options;
  }

  /** The body of the inner loop for one option: a match with no value for a `Required`
      option is an error; otherwise the looked-ahead value is consumed once, the match
      is counted and the callback runs. */
  method MatchOption(option: Option, argName: string, argValue: Optional<string>, optCntx: Context,
                     index: nat, consume: bool, matched: nat, env: Environment)
    returns (error: Optional<Error>, i: nat, consumeValue: bool, numberMatched: nat)
    requires option.WellFormed() && |optCntx.argv| > 0
    modifies env
    ensures MatchStep(option, argName, argValue, optCntx, Scan(None, index, consume, matched, old(env.State()))) ==
      Scan(error, i, consumeValue, numberMatched, env.State())
  {
    error, i, consumeValue, numberMatched := None, index, consume, matched;
    var isMatch := option.IsMatch(argName);
    if isMatch {
      if argValue.None? && option.expects == Required {
        error := Some(MakeParserError(ValueExpected, "No value given"));
        return;
      }
      if consumeValue && option.expects != NotRequired {
        consumeValue := false;
        i := i + 1;
      }
      numberMatched := numberMatched + 1;
      error := env.MatchOption(option, if option.expects == NotRequired then None else argValue, optCntx);
    }
  }

  /** Once option `k` produced an error, the whole inner loop ends in that state. */
  lemma StopAt(options: seq<Option>, k: nat, argName: string, argValue: Optional<string>, optCtx: Context, start: Scan, stopped: Scan)
    requires AllWellFormed(options) && |optCtx.argv| > 0 && k < |options|
    requires MatchAll(options[..k + 1], argName, argValue, optCtx, start) == stopped && stopped.error.Some?
    ensures MatchAll(options, argName, argValue, optCtx, start) == stopped
  {
    MatchAllSplit(options[..k + 1], options[k + 1..], argName, argValue, optCtx, start);
    assert options[..k + 1] + options[k + 1..] == options;
    MatchAllAfterError(options[k + 1..], argName, argValue, optCtx, stopped);
  }

  /** The name of option token `i`, and its value: inline, or the next token when that
      exists and lacks the prefix (then `consumeValue` is set). */
  method OfferValue(ctx: Context, prefix: char, separator: char, i: nat)
    returns (argName: string, argValue: Optional<string>, consumeValue: bool)
    requires i < |ctx.argv| && ctx.argv[i].Some?
    ensures argName == SplitOption(ctx.argv[i].value, prefix, separator).0
    ensures argValue == OfferedValue(ctx, prefix, separator, i)
    ensures consumeValue == Lookahead(ctx, prefix, separator, i)
  {
    argName, argValue := ParseOption(ctx.argv[i].value, prefix, separator);
    consumeValue := false;
    if argValue.None? {
      if i + 1 < |ctx.argv| {
        var nextArg := TextOf(ctx.argv[i + 1]);
        if !StartsWith(nextArg, prefix) {
          argValue := Some(nextArg);
          consumeValue := true;
        }
      }
    }
  }

  /** The body of the `parseOptions` loop for option token `i`: split it, offer its value
      and run the inner loop over the options. */
  method ParseOptionToken(ctx: Context, options: seq<Option>, prefix: char, separator: char, i: nat, env: Environment)
    returns (error: Optional<Error>, next: nat, numberMatched: nat)
    requires AllWellFormed(options) && |ctx.argv| > 0 && i < |ctx.argv| && ctx.argv[i].Some?
    modifies env
    ensures var st := ScanToken(ctx, options, prefix, separator, i, old(env.State()));
      error == st.error && next == st.index && numberMatched == st.matched && env.State() == st.mem
  {
    var argName, argValue, consumeValue := OfferValue(ctx, prefix, separator, i);
    var optCntx := ctx.WithOffsetAndName(i, argName);
    var stillToConsume;
    error, next, stillToConsume, numberMatched := MatchOptions(options, argName, argValue, optCntx, i, consumeValue, env);
  }

  /** The scan from an option token `i` is the scan of that token, then the scan from the
      token after it. */
  lemma ScanOptionToken(ctx: Context, options: seq<Option>, prefix: char, separator: char, i: nat, mem: Memory)
    requires AllWellFormed(options) && |ctx.argv| > 0 && i < |ctx.argv|
    requires ctx.argv[i].Some? && StartsWith(ctx.argv[i].value, prefix)
    ensures var st := ScanToken(ctx, options, prefix, separator, i, mem);
      ScanOptions(ctx, options, prefix, separator, i, mem) ==
        if st.error.Some? then (Err(st.error.value), st.mem)
        else if st.matched < 1 then (Fail(UnexpectedValue, "Unexpected option"), st.mem)
        else ScanOptions(ctx, options, prefix, separator, st.index + 1, st.mem)
  {
  }

  /**
   * One round of the `parseOptions` loop at token `i`: either the loop ends there (`done`,
   * with the result `r`), or it goes on at `next`, having scanned one option token and,
   * perhaps, its value.
   */
  method ParseOptionsStep(ctx: Context, options: seq<Option>, prefix: char, separator: char, i: nat, env: Environment)
    returns (done: bool, r: Result<nat, Error>, next: nat)
    requires AllWellFormed(options) && |ctx.argv| > 0 && i < |ctx.argv|
    modifies env
    ensures i < next <= |ctx.argv|
    ensures done ==> (r, env.State()) == ScanOptions(ctx, options, prefix, separator, i, old(env.State()))
    ensures !done ==>
      ScanOptions(ctx, options, prefix, separator, next, env.State()) ==
      ScanOptions(ctx, options, prefix, separator, i, old(env.State()))
  {
    next := i + 1;
    if ctx.argv[i].None? {
      return true, Fail(InvalidInput, "null string as input"), next;
    }
    var arg := ctx.argv[i].value;
    if !StartsWith(arg, prefix) {
      return true, Ok(i), next;
    }
    ghost var mem := env.State();
    var error, last, numberMatched := ParseOptionToken(ctx, options, prefix, separator, i, env);
    ScanOptionToken(ctx, options, prefix, separator, i, mem);
    next := last + 1;
    if error.Some? {
      return true, Err(error.value), next;
    }
    if numberMatched < 1 {
      return true, Fail(UnexpectedValue, "Unexpected option"), next;
    }
    return false, Ok(next), next;
  }

  /** `parseOptions`: the loop over option tokens. */
  method ParseOptions(ctx: Context, options: seq<Option>, prefix: char, separator: char, env: Environment)
    returns (r: Result<nat, Error>)
    requires AllWellFormed(options) && |ctx.argv| > 0 && ctx.offset <= |ctx.argv|
    modifies env
    ensures (r, env.State()) == ScanOptions(ctx, options, prefix, separator, ctx.offset, old(env.State()))
  {
    ghost var goal := ScanOptions(ctx, options, prefix, separator, ctx.offset, env.State());
    var firstPositionalArgument := ctx.offset;
    var i := ctx.offset;
    while i < |ctx.argv|
      invariant firstPositionalArgument == i <= |ctx.argv|
      invariant ScanOptions(ctx, options, prefix, separator, i, env.State()) == goal
      decreases |ctx.argv| - i
    {
      var done, res, next := ParseOptionsStep(ctx, options, prefix, separator, i, env);
      if done {
        return res;
      }
      i := next;
      firstPositionalArgument := i;
    }
    return Ok(firstPositionalArgument);
  }
}
