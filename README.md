# libclime in Dafny

A model of libclime, a C++ command-line parser. A program declares a tree of commands. Each
command has a description, an action, options (flags with aliases, a value policy and a
callback), named sub-commands and positional arguments. `Parser::parse` walks a token vector
against that tree:

- it splits option tokens (`-x`, `--name`, `--name=value`);
- it matches each option against the current command's options, looking ahead one token for a value;
- it descends into the sub-command the next positional token names;
- it binds positional arguments, where a trailing `*` argument takes every remaining token;
- it returns the action of the command it stops at, or a structured error.

Typed callbacks convert values with `strtoll`/`strtoull` semantics and store them into caller
variables. The built-in help and version options print and then stop parsing with the
`NoError` signal.

The modules follow the library's files:

| module | file | models |
|---|---|---|
| `Wrappers` | wrappers.dfy | `Optional` and `Result` |
| `ErrorCategory` | error_category.dfy | errorCategory.hpp/.cpp: the error codes, their messages, `makeParserError` |
| `ParseUtils` | parse_utils.dfy | parseUtils.cpp: `tryParseBoolean`, `tryParseInt8` … `tryParseUInt64`, with `strtoll`/`strtoull` (ISO C11 section 7.22.1.4, base 0, C locale) written out |
| `Declarations` | declarations.dfy | parser.hpp and arguments.cpp: `Option`, `Argument`, `Command`, `Context`, the value policy, the typed constructors, `isMatch`, `isTrailing` |
| `HelpPrinter` | help_printer.dfy | helpPrinter.cpp: the usage/options/commands text, the version line, the built-in help and version options and commands |
| `Bindings` | bindings.dfy | arguments.cpp: what a callback does to the caller's variables and to standard output (`Option::match`, `Argument::match`) |
| `Engine` | engine.dfy | parser.cpp: `parseOption` and `parseOptions` |
| `Dispatcher` | dispatch.dfy | parser.cpp: `parseArguments`, `parseCommand`, `Parser::parse` |
| `Objects` | objects.dfy | parser.hpp: the `Option`, `Argument` and `Command` objects, with `swap` and the `Command` fluent setters |
| `CommandLine` | command_line.dfy | parser.hpp and parser.cpp: the `Parser` class, with its constructors, accessors, setters, `swap` and `parse` |
| `Multivalue` | multivalue.dfy | extras/multivalueParser.hpp: `MultivalueParser` |
| `Scenarios` | scenarios.dfy | whole-parser behaviour on a small calculator program |

The caller-owned variables that typed callbacks write through pointers are modelled as numbered
cells. They are bundled with standard output into a `Memory` value. The class
`Bindings.Environment` holds that memory as mutable state, so the imperative members can change
it. Every pure spec function takes and returns a `Memory`. Every imperative method is proved to
leave `env.State()` equal to what its spec function computes from `old(env.State())`. The
parser's loops are methods with invariants, proved against spec functions:

- `ParseOption`;
- `parseOptions` and its inner option loop;
- `parseArguments`;
- `isMatch`;
- `formatOption` and the help formatter;
- `MultivalueParser::parseOption` and `operator()`.

`parseCommand` is a recursive method.

Where the library's documentation and its code differ, the model follows the code:

- The help option without a value prints the help of the root command, under the program name
  (`argv[0]`), and never the help of the sub-command being parsed.
- The value of the help option is looked up only among the root command's sub-commands.
- The built-in `help` sub-command prints nothing, because its printer call is commented out.
- `Parser::parse` takes an array view of tokens, as parser.cpp defines it, rather than the
  header's `(argc, argv)`.

There is one exception: the padding bug under "## Findings". There the help text uses the
corrected layout, and the code's layout is modelled beside it.

## Model

| member | source | states |
|---|---|---|
| ErrorCategory.Code | include/clime/errorCategory.hpp:31-40 | each code's integer value lies in 0..5, in declaration order |
| ErrorCategory.FromCode | include/clime/errorCategory.hpp:31-40 | an integer names a code exactly when it is in 0..5 |
| ErrorCategory.CodeRoundTrip | include/clime/errorCategory.hpp:31-40 | `FromCode(n)` is `code` if and only if `n` is `Code(code)`, both directions |
| ErrorCategory.CodesDistinct | include/clime/errorCategory.hpp:31-40 | two codes have the same value only if they are the same code |
| ErrorCategory.CodeToMessage | src/errorCategory.cpp:41-52 | every code has a non-empty message |
| ErrorCategory.Message | src/errorCategory.cpp:34-38 | `message(errCode)` is the code's message for 0..5 and "unknown error" for any other integer |
| ErrorCategory.MessageOfCode | src/errorCategory.cpp:34-52 | the message of a code's value is that code's message |
| ErrorCategory.MessagesDistinct | src/errorCategory.cpp:41-52 | distinct codes have distinct messages, none of them "unknown error" |
| ErrorCategory.MakeParserError | src/errorCategory.cpp:62-65 | the error is in the clime domain with category atom "clime", value `Code(code)` and the given tag |
| ErrorCategory.MakeParserErrorInjective | src/errorCategory.cpp:62-65 | two parser errors are equal if and only if their codes and tags are |
| ErrorCategory.Fail | src/parser.cpp:166-173 | the failure is an error result with the code's value and the tag |
| ParseUtils.TryParseBoolean | src/parseUtils.cpp:107-120 | the only failure is the range error "Value Conversion" |
| ParseUtils.BooleanIgnoresCase | src/parseUtils.cpp:107-120 | lowering the case of the value does not change the result |
| ParseUtils.EmptyIsTrue | src/parseUtils.cpp:107-120 | a value is a case-folded prefix of both "true" and "false" exactly when it is empty, and the empty value parses as true |
| ParseUtils.BooleanIgnoresTail | src/parseUtils.cpp:107-120 | "true", "TRUE", "false", "False" followed by anything parse as their word, because only the first 4 or 5 characters are compared |
| ParseUtils.BooleanWords | src/parseUtils.cpp:107-120 | "1" and "t" are true, "0" and "f" are false, and "maybe" and "10" are rejected |
| ParseUtils.WidthWithinIntermediate | src/parseUtils.cpp:52-104 | every signed width fits in `int64` and every unsigned width in `uint64` |
| ParseUtils.LeadingSpaces | src/parseUtils.cpp:61 | `strtoll` skips exactly the maximal run of C-locale white space |
| ParseUtils.DigitRun | src/parseUtils.cpp:61 | the digits read are the maximal run of digits of the base |
| ParseUtils.ScanConstant | src/parseUtils.cpp:61 | a base-0 constant found in the text has a positive length within the text |
| ParseUtils.BodyStart | src/parseUtils.cpp:61 | the constant starts after the white space and at most one sign |
| ParseUtils.ScanNumeral | src/parseUtils.cpp:61 | a numeral found ends after the leading white space and within the text |
| ParseUtils.Strtoll | src/parseUtils.cpp:61-65 | the result lies in the `int64` range, clamped with ERANGE, and a conversion happened exactly when a numeral was found |
| ParseUtils.Strtoull | src/parseUtils.cpp:88-92 | the result lies in the `uint64` range, with negation modulo 2^64, and a conversion happened exactly when a numeral was found |
| ParseUtils.ParseSigned | src/parseUtils.cpp:52-76 | a success lies within the width, and every failure is the conversion error |
| ParseUtils.ParseUnsigned | src/parseUtils.cpp:79-104 | a success lies within the width, and every failure is the conversion error |
| ParseUtils.ParseSignedMeaning | src/parseUtils.cpp:52-76 | success if and only if a numeral is found and its value fits the width; the value is then the numeral's value |
| ParseUtils.ParseUnsignedMeaning | src/parseUtils.cpp:79-104 | success if and only if a numeral is found and its modulo-2^64 value fits the width; the value is then that value |
| ParseUtils.LeadingSpacesUnique | src/parseUtils.cpp:61 | `LeadingSpaces` is the only count of leading white space followed by a non-space |
| ParseUtils.DigitRunUnique | src/parseUtils.cpp:61 | `DigitRun` is the only count of leading digits followed by a non-digit |
| ParseUtils.LeadingSpacesOfPrefix | src/parseUtils.cpp:61 | cutting the text after its leading white space keeps the white-space count |
| ParseUtils.DigitRunOfPrefix | src/parseUtils.cpp:61 | cutting the text after the digit run keeps the run |
| ParseUtils.ConstantOfPrefix | src/parseUtils.cpp:61 | the constant scanned from its own text alone is the same constant |
| ParseUtils.TrailingIgnored | src/parseUtils.cpp:61-68 | the numeral of a text is the numeral of the text cut at its end, so trailing characters are ignored |
| ParseUtils.TrailingIgnoredByConverters | src/parseUtils.cpp:52-104 | every width converts a text and the text cut after its numeral alike, so "12abc" is 12 |
| ParseUtils.DigitChar | src/parseUtils.cpp:61 | the character of a decimal digit is a digit with that value |
| ParseUtils.DecimalDigits | src/parseUtils.cpp:61 | the decimal text of a number is never empty |
| ParseUtils.DecimalDigitsShape | src/parseUtils.cpp:61 | a decimal text consists of digits whose value is the number, without a leading zero unless it is 0 |
| ParseUtils.FullRun | src/parseUtils.cpp:61 | a text made only of digits is entirely one digit run |
| ParseUtils.LeadingZero | src/parseUtils.cpp:61 | a leading zero digit does not change a digit string's value |
| ParseUtils.RunBeforeStop | src/parseUtils.cpp:61 | the digit run of digits followed by a non-digit is exactly those digits |
| ParseUtils.HexConstant | src/parseUtils.cpp:61 | base 0 reads "0x" or "0X" and a run of hex digits as that run's hexadecimal value, ending at the first non-hex character |
| ParseUtils.OctalConstant | src/parseUtils.cpp:61 | base 0 reads "0" and a run of octal digits as that run's octal value, unless the "0" opens a hexadecimal constant |
| ParseUtils.DecimalConstant | src/parseUtils.cpp:61 | base 0 reads a non-zero digit and further decimal digits as their decimal value |
| ParseUtils.UnsignedText | src/parseUtils.cpp:61 | a text that opens with a digit is an unsigned numeral made of the constant it starts with |
| ParseUtils.ConstantConverts | src/parseUtils.cpp:61-75 | such a constant that fits 32 bits is what the 32-bit conversion gives |
| ParseUtils.HexExample | src/parseUtils.cpp:61-75 | "0x1F" converts to 31 |
| ParseUtils.OctalExample | src/parseUtils.cpp:61-75 | "010" converts to 8 |
| ParseUtils.BareHexPrefixExample | src/parseUtils.cpp:61-75 | "0x" converts to 0: the "x" follows the constant "0" |
| ParseUtils.NonOctalDigitExample | src/parseUtils.cpp:61-75 | "08" converts to 0: "8" cannot continue an octal constant |
| ParseUtils.ScanDecimal | src/parseUtils.cpp:61 | base 0 reads a decimal text back as its number, over its whole length |
| ParseUtils.ScanFormatted | src/parseUtils.cpp:61 | the numeral read from a formatted integer has that integer's sign and magnitude and spans the text |
| ParseUtils.SignedRoundTrip | src/parseUtils.cpp:52-76 | every signed width reads a formatted integer back when it fits and rejects it otherwise |
| ParseUtils.UnsignedRoundTrip | src/parseUtils.cpp:79-104 | every unsigned width reads a formatted natural back when it fits and rejects it otherwise |
| ParseUtils.NegatedValue | src/parseUtils.cpp:88 | a negative numeral of magnitude m reads as 2^64 - m in `strtoull` |
| ParseUtils.UnsignedNegation | src/parseUtils.cpp:79-104 | an unsigned width reads "-m" as 2^64 - m when that fits the width and rejects it otherwise |
| ParseUtils.TryParseInt8 | src/parseUtils.cpp:122-123 | a success lies in -128..127 |
| ParseUtils.TryParseInt16 | src/parseUtils.cpp:125-126 | a success lies in -32768..32767 |
| ParseUtils.TryParseInt32 | src/parseUtils.cpp:128-129 | a success lies in the 32-bit signed range |
| ParseUtils.TryParseInt64 | src/parseUtils.cpp:131-132 | a success lies in the 64-bit signed range |
| ParseUtils.TryParseUInt8 | src/parseUtils.cpp:134-135 | a success lies in 0..255 |
| ParseUtils.TryParseUInt16 | src/parseUtils.cpp:137-138 | a success lies in 0..65535 |
| ParseUtils.TryParseUInt32 | src/parseUtils.cpp:140-141 | a success lies in the 32-bit unsigned range |
| ParseUtils.TryParseUInt64 | src/parseUtils.cpp:143-144 | a success lies in the 64-bit unsigned range |
| ParseUtils.TryParseInt | src/parseUtils.cpp:122-144 | each width's parser keeps its result in range, fails only with the conversion error, and uses the signed or unsigned converter as its signedness says |
| ParseUtils.Int8Upper | src/parseUtils.cpp:70-71 | "127" is accepted by int8 and "128" is rejected |
| ParseUtils.Int8Lower | src/parseUtils.cpp:70-71 | "-128" is accepted by int8 |
| ParseUtils.MinusOneUnsigned | src/parseUtils.cpp:88-100 | "-1" is `UINT64_MAX` for uint64 and is rejected by uint32 |
| Declarations.Option.IsMatch | src/arguments.cpp:304-313 | the option matches a name exactly when the name is one of its names |
| Declarations.StoreOptionFor | src/arguments.cpp:70-198 | a typed option is well formed; a boolean option takes an optional value and every other type requires one |
| Declarations.StoreArgumentFor | src/arguments.cpp:202-295 | a typed argument stores into its destination, and it is trailing exactly when it is named "*" |
| Declarations.SimpleCommand | include/clime/parser.hpp:290-295 | the two-argument command has the description and action and no options, sub-commands or arguments |
| Declarations.DictOf | include/clime/parser.hpp:358-361 | the sub-command map has exactly the keys of the pairs |
| Declarations.DictOfFirstWins | include/clime/parser.hpp:358-361 | a key maps to the command of its first pair, as `std::map` construction keeps the first |
| Declarations.DictOfWellFormed | include/clime/parser.hpp:358-361 | a map built from well-formed commands holds only well-formed commands |
| HelpPrinter.LessEqTotal | src/helpPrinter.cpp:117-123 | the order of sub-command names is total |
| HelpPrinter.LessEqAntisymmetric | src/helpPrinter.cpp:117-123 | the order is antisymmetric |
| HelpPrinter.LessEqTransitive | src/helpPrinter.cpp:117-123 | the order is transitive |
| HelpPrinter.AntisymmetricEverywhere | src/helpPrinter.cpp:117-123 | antisymmetry holds for every pair of names |
| HelpPrinter.LessEqReflexive | src/helpPrinter.cpp:117-123 | the order is reflexive |
| HelpPrinter.HasLeast | src/helpPrinter.cpp:117-123 | every non-empty set of names has a least element |
| HelpPrinter.Least | src/helpPrinter.cpp:117-123 | the least name belongs to the set and precedes every member |
| HelpPrinter.SortedKeys | src/helpPrinter.cpp:117-123 | lists exactly the map's keys |
| HelpPrinter.SortedKeysOrdered | src/helpPrinter.cpp:117-123 | the listed keys increase strictly, so each appears once and there are as many as the map has |
| HelpPrinter.Alias | src/helpPrinter.cpp:49-53 | the alias ends with the name, and what comes before it is prefix characters only: one for a one-character name, two for any other |
| HelpPrinter.JoinAliasesSnoc | src/helpPrinter.cpp:44-56 | one more name appends ", " and its alias |
| HelpPrinter.AliasColumnIsJoin | src/helpPrinter.cpp:44-56 | the alias column is the aliases joined by ", " |
| HelpPrinter.AliasColumnExtend | src/helpPrinter.cpp:44-56 | the column of the first k+1 names extends that of the first k by ", " and one alias |
| HelpPrinter.Spaces | src/helpPrinter.cpp:58-59 | n spaces |
| HelpPrinter.PadRight | src/helpPrinter.cpp:58-59 | `setw` with left alignment: at least the width, the text first, then spaces |
| HelpPrinter.OptionLineLayout | src/helpPrinter.cpp:58-61 | an option line is two spaces, then the aliases, then the description at column 28, then a newline |
| HelpPrinter.FormatOption | src/helpPrinter.cpp:41-62 | the loop with the `chained` flag writes exactly the option line |
| HelpPrinter.FillBuffer | src/helpPrinter.cpp:73 | the fill buffer is 15 spaces and a NUL |
| HelpPrinter.CommandLineAsWrittenPads | src/helpPrinter.cpp:65-79 | for a non-empty name, the code's line is the name padded to 16 with spaces |
| HelpPrinter.EmptyCommandNameWritesNul | src/helpPrinter.cpp:72-75 | for an empty name the code writes a NUL byte into the line, and the padded line has none |
| HelpPrinter.CommandLineLayout | src/helpPrinter.cpp:65-79 | a sub-command line is two spaces and the name, then the description at column 18, then a newline |
| HelpPrinter.HelpOfBareCommand | src/helpPrinter.cpp:84-124 | the help of a command without options, arguments or sub-commands is its usage line and its description |
| HelpPrinter.HelpStartsWithUsage | src/helpPrinter.cpp:89 | every help text starts with "Usage: " and the program name |
| HelpPrinter.FormatUsage | src/helpPrinter.cpp:89-106 | the usage loop writes the usage line |
| HelpPrinter.FormatOptions | src/helpPrinter.cpp:109-115 | the options loop writes every option line in declaration order |
| HelpPrinter.FormatCommands | src/helpPrinter.cpp:117-123 | the commands loop writes every sub-command line in key order, with the corrected padding |
| HelpPrinter.FormatCommandLines | src/helpPrinter.cpp:120-122 | given the names in order, the loop writes one line per sub-command, padded by spaces to 16 columns (the corrected layout) |
| HelpPrinter.FormatHelp | src/helpPrinter.cpp:84-124 | the formatter writes the whole help text, with the corrected command padding |
| HelpPrinter.VersionText | src/helpPrinter.cpp:126-128 | the version line is two characters longer than name and version together; the name opens it, a space follows, then the version, and a newline ends it |
| HelpPrinter.PrintVersionOption | src/helpPrinter.cpp:135-144 | the version option is "v"/"version", takes no value and prints the version |
| HelpPrinter.PrintHelpOption | src/helpPrinter.cpp:147-170 | the help option is "h"/"help" with an optional value |
| HelpPrinter.PrintVersionCommand | src/helpPrinter.cpp:173-182 | the "version" sub-command is bare and its action prints the version |
| HelpPrinter.PrintHelpCommand | src/helpPrinter.cpp:185-196 | the "help" sub-command is bare, with the help action |
| HelpPrinter.RunAction | src/helpPrinter.cpp:173-196 | the library's own actions succeed, write no variable and only append to the output; only the version action prints anything |
| Bindings.Store | src/arguments.cpp:41-64 | a store writes at most its own cell and changes nothing on failure; text is stored verbatim; an integer failure is `OptionParsing` tagged with the name; a boolean failure is the conversion error |
| Bindings.StoreChangesOnlyItsSlot | src/arguments.cpp:41-64 | every other cell keeps its value |
| Bindings.IntStoreRoundTrip | src/arguments.cpp:41-51 | a formatted integer is stored when the width holds it, with the 2^64 wrap for negative values on unsigned widths, and is otherwise refused with memory unchanged |
| Bindings.LibraryOptionsStopParsing | src/helpPrinter.cpp:135-170 | help and version always return an error value and write no cell: `NoError` after printing, or invalid input "help" exactly for an unknown sub-command name, with nothing printed |
| Bindings.VersionPrintedAlike | src/helpPrinter.cpp:133-182 | the "-v" option and the "version" sub-command append the same version line and write no variable; the option returns the `NoError` "version" signal and the sub-command succeeds |
| Bindings.HelpCommandPrintsNothing | src/helpPrinter.cpp:185-196 | the "help" sub-command succeeds and changes nothing |
| Bindings.HelpWithoutValue | src/helpPrinter.cpp:162-168 | help without a value prints the root command's help under `argv[0]` and returns `NoError` "help" |
| Bindings.BoolFlag | src/arguments.cpp:186-198 | a boolean flag without a value becomes true, and with a value it becomes that value's conversion |
| Bindings.ArgumentMatch | src/arguments.cpp:322-325 | a typed argument that fails leaves memory unchanged, and one that succeeds writes only its own variable; a text argument always stores the token; an integer failure is `OptionParsing` tagged with the context's name, a boolean failure the conversion error |
| Bindings.Environment.StoreThrough | src/arguments.cpp:41-64 | the method writes memory exactly as `Store` says |
| Bindings.Environment.MatchOption | src/arguments.cpp:316-319 | the method runs the option's callback as `OptionMatch` says |
| Bindings.Environment.MatchArgument | src/arguments.cpp:322-325 | the method runs the argument's callback as `ArgumentMatch` says |
| Engine.IndexOf | src/parser.cpp:70-73 | the first position of the separator, or the length when it is absent |
| Engine.SplitOption | src/parser.cpp:63-78 | the name never contains the separator |
| Engine.SplitOptionReassembles | src/parser.cpp:63-78 | a token no longer than its prefix gives an empty name and no value; otherwise prefix, name, separator and value reassemble the token |
| Engine.SplitLongForm | src/parser.cpp:63-78 | "--name=value" splits into the name and the value |
| Engine.SplitFlagForms | src/parser.cpp:63-78 | "--name", and "-name" when the name does not start with the prefix, give the name and no value |
| Engine.IndexOfUnique | src/parser.cpp:70-73 | `IndexOf` is the only position before which the separator is absent and at which it occurs |
| Engine.IndexOfFirst | src/parser.cpp:70-73 | in name + separator + tail, the separator is found right after the name |
| Engine.IndexOfAbsent | src/parser.cpp:70-73 | an absent separator is found at the end |
| Engine.ParseOption | src/parser.cpp:63-78 | the loop computes `SplitOption` |
| Engine.MatchAll | src/parser.cpp:120-146 | the inner loop advances the cursor at most once, only when the value was looked ahead, and never re-arms the lookahead |
| Engine.ScanOptions | src/parser.cpp:81-155 | the positional index lies between the offset and the end, and a token stopped at is present and has no prefix |
| Engine.ScanToken | src/parser.cpp:100-146 | one option token moves the cursor by zero or one, and by one only when a next token exists |
| Engine.MatchAllAfterError | src/parser.cpp:143-145 | after a callback error no later option runs |
| Engine.MatchAllSplit | src/parser.cpp:120-146 | matching a concatenated option list is matching the first part and then the second |
| Engine.MatchAllCounts | src/parser.cpp:120-146 | without an error, the match count is the number of options with that name, and the cursor advances exactly when a looked-ahead value went to an option that takes values |
| Engine.MatchAllNoMatch | src/parser.cpp:120-146 | when no option has the name, nothing happens |
| Engine.NullTokenRejected | src/parser.cpp:91-93 | a null token at the cursor fails with `InvalidInput` "null string as input" and memory unchanged |
| Engine.RequiredWithoutValue | src/parser.cpp:102-127 | a token with neither an inline nor a looked-ahead value, whose first matching option requires a value, fails with `ValueExpected` "No value given" before any callback runs |
| Engine.MatchAllOnly | src/parser.cpp:120-146 | when only option k has the name, the inner loop is that option's step alone |
| Engine.NotRequiredIgnoresValue | src/parser.cpp:129-139 | when it is the only option with the name, an option taking no value is called with no value, inline value or not, and the scan resumes right after its token |
| Engine.UnknownOptionRejected | src/parser.cpp:149-151 | an option token that no option names fails with `UnexpectedValue` "Unexpected option" and memory unchanged |
| Engine.LookaheadConsumesValue | src/parser.cpp:105-133 | in "-o v", when the only option named "o" takes values, "v" is passed to it and the scan resumes after "v" |
| Engine.MatchOptions | src/parser.cpp:120-146 | the inner loop performs `MatchAll` on the environment |
| Engine.MatchOption | src/parser.cpp:121-145 | one option's turn in the inner loop performs `MatchStep` on the environment: a match without a value for a required option is `ValueExpected`, a looked-ahead value is consumed at most once, the match is counted and the callback's error is returned |
| Engine.StopAt | src/parser.cpp:143-145 | an error at option k is the result of the whole option list |
| Engine.OfferValue | src/parser.cpp:102-115 | the name, offered value and lookahead flag of an option token |
| Engine.ParseOptionToken | src/parser.cpp:100-146 | splitting option token i and running the inner loop over the options is `ScanToken` on the environment |
| Engine.ParseOptionsStep | src/parser.cpp:88-152 | one round of the loop either ends with the result `ScanOptions` gives from token i, or leaves the rest of the scan from the next token equal to the scan from i |
| Engine.ParseOptions | src/parser.cpp:81-155 | the loop performs `ScanOptions` on the environment from the context's offset |
| Dispatcher.BindFrom | src/parser.cpp:177-208 | a successful binding consumed every token |
| Dispatcher.BindArguments | src/parser.cpp:158-209 | a successful binding ends at the last token |
| Dispatcher.ArityWithoutTrailing | src/parser.cpp:160-174 | without a trailing argument, too few or too many tokens fail with `InvalidNumberOfArgs` and memory unchanged, so success means exactly one token per argument |
| Dispatcher.ArgumentFor | src/parser.cpp:195-199 | token k goes to argument k, or to the last argument from the last position on |
| Dispatcher.BindFromIsBindEach | src/parser.cpp:177-208 | the loop with its stay-on-trailing index update is the per-token reference reading |
| Dispatcher.BindArgumentsInOrder | src/parser.cpp:158-209 | once the count check passes, each token runs its own argument's callback in order, and a trailing argument runs once per remaining token |
| Dispatcher.TrailingSkipsArity | src/parser.cpp:160-174 | with a trailing argument and no tokens, binding succeeds without any callback, even with earlier arguments unbound |
| Dispatcher.ParseArguments | src/parser.cpp:158-209 | the method performs `BindArguments` on the environment |
| Dispatcher.DispatchResolvesToTreeAction | src/parser.cpp:212-256 | a successful parse yields the action of a command reached by some path of sub-command names |
| Dispatcher.NoPositionalTokens | src/parser.cpp:247-255 | when options consume every token, success holds exactly for a command without arguments and sub-commands, or one whose last argument is trailing; success yields its action, and failure is `InvalidNumberOfArgs` "Not enough arguments" |
| Dispatcher.UnknownCommand | src/parser.cpp:228-233 | a positional token naming no sub-command fails with `UnexpectedValue` "Command not supported" |
| Dispatcher.Resolve | src/parser.cpp:259-274 | with no tokens, the parse succeeds exactly for a root without arguments and sub-commands and then yields the root's action, fails otherwise with `InvalidNumberOfArgs` "Not enough arguments", and changes nothing; with tokens it dispatches from the root at offset 1 |
| Dispatcher.ParseCommand | src/parser.cpp:212-256 | the recursive method performs `Dispatch` on the environment |
| Objects.SwapOptionsTwice | include/clime/parser.hpp:175-183 | swapping two options twice restores both |
| Objects.OptionObject.Swap | include/clime/parser.hpp:175-183 | two options exchange names, description, callback and policy |
| Objects.ArgumentObject.Swap | include/clime/parser.hpp:252-258 | two arguments exchange name, description and callback |
| Objects.CommandObject.constructor | include/clime/parser.hpp:290-329 | a new command has the given description, action, options and arguments, and no sub-commands |
| Objects.CommandObject.Swap | include/clime/parser.hpp:334-342 | two commands exchange description, action, options, sub-commands and arguments |
| Objects.CommandObject.SetDescription | include/clime/parser.hpp:345-348 | only the description changes |
| Objects.CommandObject.SetOptions | include/clime/parser.hpp:351-354 | only the options change |
| Objects.CommandObject.SetCommands | include/clime/parser.hpp:358-361 | only the sub-commands change, to the map of the pairs |
| Objects.CommandObject.SetArguments | include/clime/parser.hpp:364-367 | only the arguments change |
| Objects.CommandObject.SetAction | include/clime/parser.hpp:373-377 | only the action changes |
| Objects.DescribeThenAct | include/clime/parser.hpp:345-377 | two setters on different fields each take effect and leave the rest alone |
| CommandLine.Parser.constructor | src/parser.cpp:47-52 | default prefix '-' and separator '=', and a root command with the description and the idle action |
| CommandLine.Parser.WithOptions | src/parser.cpp:55-60 | as above, with the root's options |
| CommandLine.Parser.SetOptionPrefix | include/clime/parser.hpp:503-506 | only the prefix changes |
| CommandLine.Parser.SetValueSeparator | include/clime/parser.hpp:519-522 | only the separator changes |
| CommandLine.Parser.SetDescription | include/clime/parser.hpp:535-540 | the description getter reads the new description, stored on the root command, and nothing else changes |
| CommandLine.Parser.SetOptions | include/clime/parser.hpp:542-547 | the options getter reads the new options of the root command, and nothing else changes |
| CommandLine.Parser.SetCommands | include/clime/parser.hpp:549-554 | the sub-commands getter reads the map of the pairs, and nothing else changes |
| CommandLine.Parser.SetArguments | include/clime/parser.hpp:556-561 | the arguments getter reads the new arguments, and nothing else changes |
| CommandLine.Parser.SetDefaultAction | include/clime/parser.hpp:566-571 | only the root command's action changes |
| CommandLine.Parser.Swap | include/clime/parser.hpp:437-444 | two parsers exchange prefix, separator and root command |
| CommandLine.SwapParsersTwice | include/clime/parser.hpp:437-444 | swapping two parsers twice restores both |
| CommandLine.Parser.Parse | src/parser.cpp:259-274 | parsing leaves the caller's memory and the result as `Resolve` says |
| Multivalue.Split | include/clime/extras/multivalueParser.hpp:49 | a value has one more piece than it has commas, and no piece contains a comma |
| Multivalue.JoinSplit | include/clime/extras/multivalueParser.hpp:49 | joining the pieces with commas gives the value back |
| Multivalue.SplitJoin | include/clime/extras/multivalueParser.hpp:49 | splitting comma-free pieces joined with commas gives the pieces back |
| Multivalue.SplitComma | include/clime/extras/multivalueParser.hpp:49 | a comma-free head is one piece, and the text after its comma splits on its own |
| Multivalue.ParsePiecesOk | include/clime/extras/multivalueParser.hpp:48-63 | parsing succeeds exactly when every piece parses, and then yields one value per piece, in piece order |
| Multivalue.ParsePiecesFirstError | include/clime/extras/multivalueParser.hpp:49-56 | a failure is the error of the first failing piece, and every earlier piece parsed |
| Multivalue.MultivalueParser.constructor | include/clime/extras/multivalueParser.hpp:37-40 | a fresh parser has no values |
| Multivalue.MultivalueParser.ParseOption | include/clime/extras/multivalueParser.hpp:42-66 | the loop computes `ParsePieces` of the pieces and stores nothing |
| Multivalue.MultivalueParser.Call | include/clime/extras/multivalueParser.hpp:68-83 | the value must be present; on success no error and the new values are appended after the old ones; on failure the error and the values unchanged |
| Multivalue.CallTwice | include/clime/extras/multivalueParser.hpp:68-83 | values accumulate across two successful calls |
| Scenarios.NaturalIsPositional | src/parser.cpp:99-101 | a non-negative numeral does not start with the default prefix |
| Scenarios.AddBindsOperands | src/parser.cpp:212-256 | "calc add x y" stores both 32-bit operands and resolves to the "add" action |
| Scenarios.AddMissingOperand | src/parser.cpp:166-170 | "calc add x" fails with "Not enough arguments" and stores nothing |
| Scenarios.NegativeOperandIsAnOption | src/parser.cpp:99-151 | a negative operand is read as an unknown option, so "calc add -3 4" fails with "Unexpected option" |
| Scenarios.UnknownSubcommand | src/parser.cpp:228-233 | "calc sub" fails with "Command not supported" |
| Scenarios.HelpTokenScan | src/parser.cpp:100-146 | the option scan of "calc -h" runs the help callback with no value and stops with its signal |
| Scenarios.HelpFlag | src/helpPrinter.cpp:147-170 | "calc -h" prints the root's help under "calc" and returns the `NoError` "help" signal |
| Scenarios.NameOnly | src/parser.cpp:247-255 | "calc" alone, the root having only sub-commands, fails with "Not enough arguments" |

## Left out

- Floating-point options and arguments (src/arguments.cpp:149-183 and 256-283) are not modelled: there is no faithful `strtof`/`strtod` in unbounded arithmetic.
- Printing to `std::cout` is modelled as appending to a `stdout` string. Flushing and stream state are not modelled.
- `Solace::Version` and its formatting are not part of this model. The version is taken as ready-made text.
- The error domain registration (src/errorCategory.cpp:55-57) is a static side effect, so it is left out.
- Solace's generic range error and basic invalid-input error are distinct values of `Error`, each with their tag only. Solace's numeric codes for them are not part of this model.
- `Parser::fail` is not part of this model. It is taken to build `makeParserError(code, tag)` as an error result.
- Copy and move constructors and assignment operators are left out, except the field exchange that `swap` performs.
- A user callback receives the tokens, the offset and the name (`Site`), not the parser itself. A Dafny datatype cannot hold a function whose domain contains that datatype.
- User callbacks and user actions are pure functions over `Memory`, so they cannot retain state outside it.
- A null token read without a null check is taken as the empty view. This covers the lookahead token, `argv[0]` as context name and program name, and a sub-command name.
- The narrowing cast to the C++ variable type is not modelled. A stored integer is an `int`, proved to lie within its width.
- The order of `std::map` over `StringView` is taken to be lexicographic on character codes, with a proper prefix first.
- `StringView::split` is taken to yield every piece between commas, empty ones included.
- The test's piece parser `tryParseDailString` is foreign, so `MultivalueParser` takes its piece parser as a parameter.
- `values.reserve` only changes capacity, so it is left out.
- `strtoll`/`strtoull` follow the C locale only.
- A `string` of the model stands for the bytes of a token or name, one `char` per byte. The library measures names and pads columns in bytes (`optName.length()`, `std::setw`, `name.size()`), and so does the model when its text is read this way. Decoding UTF-8 into characters is not modelled.
- `ParseUtils.TryParseInt8`: its own contract states only the range. The exact result is stated by `TryParseInt` and `ParseSignedMeaning`.
- `ParseUtils.TryParseInt16`: its own contract states only the range. The exact result is stated by `TryParseInt` and `ParseSignedMeaning`.
- `ParseUtils.TryParseInt32`: its own contract states only the range. The exact result is stated by `TryParseInt` and `ParseSignedMeaning`.
- `ParseUtils.TryParseInt64`: its own contract states only the range. The exact result is stated by `TryParseInt` and `ParseSignedMeaning`.
- `ParseUtils.TryParseUInt8`: its own contract states only the range. The exact result is stated by `TryParseInt` and `ParseUnsignedMeaning`.
- `ParseUtils.TryParseUInt16`: its own contract states only the range. The exact result is stated by `TryParseInt` and `ParseUnsignedMeaning`.
- `ParseUtils.TryParseUInt32`: its own contract states only the range. The exact result is stated by `TryParseInt` and `ParseUnsignedMeaning`.
- `ParseUtils.TryParseUInt64`: its own contract states only the range. The exact result is stated by `TryParseInt` and `ParseUnsignedMeaning`.
- `strtoll`/`strtoull` receive `value.data()` (src/parseUtils.cpp:58-61 and 85-88), so they may read past the end of a view that is not NUL-terminated. The model reads only the view. Every value the parser hands over ends at the end of its token, or at a `,` that stops the scan.
- `HelpPrinter.FormatCommands`: it writes the corrected command lines of the Findings row, so a sub-command named "" gets 16 spaces where the code writes 15 spaces and a NUL.
- `HelpPrinter.FormatHelp`: its sub-command section uses the corrected command lines, so a sub-command named "" gets 16 spaces where the code writes 15 spaces and a NUL.
- `HelpPrinter.FormatCommandLines`, and with it `HelpPrinter.HelpText` and the text the help option prints: these use the corrected command line of the Findings row, with the name padded by spaces to 16 columns. For a sub-command named "" the code writes 15 spaces and a NUL instead (`HelpPrinter.EmptyCommandNameWritesNul`). Every other name gives the same line (`HelpPrinter.CommandLineAsWrittenPads`).

## Findings

| source | as written | input that shows it | evidently intended | confidence | as-written member | corrected member |
|---|---|---|---|---|---|---|
| src/helpPrinter.cpp:72-75 | the padding copies `16 - name.size()` bytes from a 16-byte buffer holding 15 spaces and a terminating NUL | a sub-command with the empty name "": 16 bytes are written, the last being NUL | pad the name with spaces to 16 columns | not executed | HelpPrinter.EmptyCommandNameWritesNul | HelpPrinter.CommandLineLayout |
