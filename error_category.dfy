/**
 * The parser's error taxonomy (include/clime/errorCategory.hpp, src/errorCategory.cpp):
 * the `ParserError` codes, the message each code maps to, and the errors the library returns.
 */
module ErrorCategory {
  import opened Wrappers

  /** `enum class ParserError : int`; `NoError` is the stop signal used by help and version. */
  datatype ParserError = NoError | InvalidNumberOfArgs | ValueExpected | UnexpectedValue | InvalidInput | OptionParsing

  /** `static_cast<int>(code)`: the enumerators take the values 0..5 in declaration order. */
  function Code(code: ParserError): (n: int)
    ensures 0 <= n <= 5
  {
    match code
    case NoError => 0
    case InvalidNumberOfArgs => 1
    case ValueExpected => 2
    case UnexpectedValue => 3
    case InvalidInput => 4
    case OptionParsing => 5
  }

  /** `static_cast<ParserError>(n)` for the values that name an enumerator. */
  function FromCode(n: int): (code: Optional<ParserError>)
    ensures code.Some? <==> 0 <= n <= 5
  {
    if n == 0 then Some(NoError)
    else if n == 1 then Some(InvalidNumberOfArgs)
    else if n == 2 then Some(ValueExpected)
    else if n == 3 then Some(UnexpectedValue)
    else if n == 4 then Some(InvalidInput)
    else if n == 5 then Some(OptionParsing)
    else None
  }

  /** The integer code and the enumerator determine each other. */
  lemma CodeRoundTrip(code: ParserError, n: int)
    ensures FromCode(n) == Some(code) <==> n == Code(code)
  {
  }

  /** All six codes are distinct. */
  lemma CodesDistinct(a: ParserError, b: ParserError)
    ensures Code(a) == Code(b) <==> a == b
  {
    CodeRoundTrip(a, Code(b));
  }

  /** `ParserErrorDomain::name()`. */
  const DomainName: string := "CLI arguments"

  /** The category atom every parser error is tagged with. */
  const CategoryAtom: string := "clime"

  /** `ParserErrorDomain::codeToMessage`: the fixed message of each code. */
  function CodeToMessage(code: ParserError): (m: string)
    ensures |m| > 0
  {
    match code
    case NoError => "not an error"
    case InvalidNumberOfArgs => " invalid number of arguments"
    case ValueExpected => " value is expected"
    case UnexpectedValue => " unexpected value"
    case InvalidInput => " invalid input"
    case OptionParsing => " error parsing option value"
  }

  /** `ParserErrorDomain::message(int)`: the integer is cast to the enum and switched on;
      a value naming no enumerator falls out of the switch. */
  function Message(errCode: int): (m: string)
    ensures 0 <= errCode <= 5 ==> m == CodeToMessage(FromCode(errCode).value)
    ensures !(0 <= errCode <= 5) ==> m == "unknown error"
  {
    match FromCode(errCode)
    case Some(code) => CodeToMessage(code)
    case None => "unknown error"
  }

  /** The message of a code's integer value is that code's message. */
  lemma MessageOfCode(code: ParserError)
    ensures Message(Code(code)) == CodeToMessage(code)
  {
    CodeRoundTrip(code, Code(code));
  }

  /** No two codes share a message, and none of them reads "unknown error". */
  lemma MessagesDistinct(a: ParserError, b: ParserError)
    ensures CodeToMessage(a) == CodeToMessage(b) <==> a == b
    ensures CodeToMessage(a) != "unknown error"
  {
  }

  /** The error domain an error belongs to. */
  datatype Domain = Clime | SolaceGeneric | SolaceBasic

  /**
   * A Solace `Error`: category, code and a free-form tag.
   * Parser errors carry a `ParserError`; the two foreign errors the library produces are
   * Solace's `GenericError::RANGE` (every value-conversion failure) and
   * `BasicError::InvalidInput` (help asked about an unknown command).
   */
  datatype Error =
    | ParserFailure(code: ParserError, tag: string)
    | RangeFailure(tag: string)
    | InvalidInputFailure(tag: string)
  {
    function Domain(): Domain {
      match this
      case ParserFailure(_, _) => Clime
      case RangeFailure(_) => SolaceGeneric
      case InvalidInputFailure(_) => SolaceBasic
    }

    /** The category atom of a parser error. */
    function Category(): string
      requires Domain() == Clime
    {
      CategoryAtom
    }

    /** The integer value of a parser error's code. */
    function Value(): int
      requires Domain() == Clime
    {
      Code(code)
    }
  }

  /** `makeParserError(code, tag)`: the only way the parser builds its own errors. */
  function MakeParserError(code: ParserError, tag: string): (e: Error)
    ensures e.Domain() == Clime && e.Category() == "clime"
    ensures e.Value() == Code(code) && Message(e.Value()) == CodeToMessage(code)
    ensures e.tag == tag
  {
    MessageOfCode(code);
    ParserFailure(code, tag)
  }

  /** Two parser errors are equal exactly when their codes and tags are. */
  lemma MakeParserErrorInjective(a: ParserError, s: string, b: ParserError, t: string)
    ensures MakeParserError(a, s) == MakeParserError(b, t) <==> a == b && s == t
  {
  }

  /** `Parser::fail(code, tag)`: an `Err` result carrying `makeParserError(code, tag)`. */
  function Fail<T>(code: ParserError, tag: string): (r: Result<T, Error>)
    ensures r.Err? && r.error.Domain() == Clime && r.error.Value() == Code(code) && r.error.tag == tag
  {
    Err(MakeParserError(code, tag))
  }
}
