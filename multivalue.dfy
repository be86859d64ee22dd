/**
 * `clime::extras::MultivalueParser` (include/clime/extras/multivalueParser.hpp): an option
 * callback that splits its value on commas, parses every piece with a piece parser and
 * accumulates the parsed values across calls.
 */
module Multivalue {
  import opened Wrappers
  import opened ErrorCategory
  import opened Declarations

  const Comma: char := ','

  /** The number of commas in `s`. */
  function Commas(s: string): nat {
    if s == [] then 0 else (if s[0] == Comma then 1 else 0) + Commas(s[1..])
  }

  /** The pieces between commas, in order, empty ones included: "a,,b" has three pieces and
      "" has one. */
  function Split(s: string): (pieces: seq<string>)
    ensures |pieces| == Commas(s) + 1
    ensures forall i :: 0 <= i < |pieces| ==> Comma !in pieces[i]
    decreases |s|
  {
    if s == [] then [""]
    else if s[0] == Comma then [""] + Split(s[1..])
    else
      var rest := Split(s[1..]);
      [[s[0]] + rest[0]] + rest[1..]
  }

  /** The pieces joined with commas. */
  function Join(pieces: seq<string>): string
    requires |pieces| > 0
    decreases |pieces|
  {
    if |pieces| == 1 then pieces[0] else pieces[0] + [Comma] + Join(pieces[1..])
  }

  /** Splitting loses nothing: joining the pieces gives the value back. */
  lemma {:induction false} JoinSplit(s: string)
    ensures Join(Split(s)) == s
    decreases |s|
  {
    if s != [] {
      JoinSplit(s[1..]);
      var rest := Split(s[1..]);
      if s[0] == Comma {
        assert ([""] + rest)[1..] == rest;
      } else {
        var pieces := [[s[0]] + rest[0]] + rest[1..];
        if |rest| > 1 {
          assert pieces[1..] == rest[1..];
          assert Join(rest) == rest[0] + [Comma] + Join(rest[1..]);
        }
      }
    }
  }

  /** Joining comma-free pieces and splitting again gives the same pieces. */
  lemma {:induction false} SplitJoin(pieces: seq<string>)
    requires |pieces| > 0
    requires forall i :: 0 <= i < |pieces| ==> Comma !in pieces[i]
    ensures Split(Join(pieces)) == pieces
    decreases |pieces|
  {
    if |pieces| == 1 {
      SplitComma(pieces[0], []);
    } else {
      SplitJoin(pieces[1..]);
      SplitComma(pieces[0], Join(pieces[1..]));
      assert [pieces[0]] + pieces[1..] == pieces;
    }
  }

  /** A comma-free head is the first piece; what follows its comma splits on its own. */
  lemma {:induction false} SplitComma(head: string, tail: string)
    requires Comma !in head
    ensures Split(head) == [head]
    ensures Split(head + [Comma] + tail) == [head] + Split(tail)
    decreases |head|
  {
    if head == [] {
      assert head + [Comma] + tail == [Comma] + tail;
      assert ([Comma] + tail)[1..] == tail;
    } else {
      SplitComma(head[1..], tail);
      assert (head + [Comma] + tail)[1..] == head[1..] + [Comma] + tail;
      assert [head[0]] + head[1..] == head;
    }
  }

  /**
   * The pieces parsed in order, left to right: the values in piece order, or the error of
   * the first piece that fails to parse.
   */
  function ParsePieces<V>(parse: string -> Result<V, Error>, pieces: seq<string>): (r: Result<seq<V>, Error>)
    decreases |pieces|
  {
    if pieces == [] then Ok([])
    else
      var init := ParsePieces(parse, pieces[..|pieces| - 1]);
      if init.Err? then init
      else
        var last := parse(pieces[|pieces| - 1]);
        if last.Err? then Err(last.error) else Ok(init.value + [last.value])
  }

  /** Success exactly when every piece parses, and then one value per piece, in order. */
  lemma {:induction false} ParsePiecesOk<V>(parse: string -> Result<V, Error>, pieces: seq<string>)
    ensures ParsePieces(parse, pieces).Ok? <==> forall i :: 0 <= i < |pieces| ==> parse(pieces[i]).Ok?
    ensures ParsePieces(parse, pieces).Ok? ==>
      |ParsePieces(parse, pieces).value| == |pieces| &&
      forall i :: 0 <= i < |pieces| ==> ParsePieces(parse, pieces).value[i] == parse(pieces[i]).value
    decreases |pieces|
  {
    if pieces != [] {
      var init := pieces[..|pieces| - 1];
      ParsePiecesOk(parse, init);
      assert forall i :: 0 <= i < |init| ==> init[i] == pieces[i];
    }
  }

  /** A failure is the error of the first piece that fails; every earlier piece parses. */
  lemma {:induction false} ParsePiecesFirstError<V>(parse: string -> Result<V, Error>, pieces: seq<string>)
    requires ParsePieces(parse, pieces).Err?
    ensures exists k :: 0 <= k < |pieces| && parse(pieces[k]).Err? &&
                        ParsePieces(parse, pieces).error == parse(pieces[k]).error &&
                        forall j :: 0 <= j < k ==> parse(pieces[j]).Ok?
    decreases |pieces|
  {
    var n := |pieces|;
    var init := pieces[..n - 1];
    assert forall i :: 0 <= i < |init| ==> init[i] == pieces[i];
    if ParsePieces(parse, init).Err? {
      ParsePiecesFirstError(parse, init);
      var k :| 0 <= k < |init| && parse(init[k]).Err? &&
               ParsePieces(parse, init).error == parse(init[k]).error &&
               forall j :: 0 <= j < k ==> parse(init[j]).Ok?;
      assert parse(pieces[k]).Err?;
    } else {
      ParsePiecesOk(parse, init);
      assert parse(pieces[n - 1]).Err?;
    }
  }

  /** `MultivalueParser<V>`: the piece parser and the accumulated values. */
  class MultivalueParser<V> {
    const parseValue: string -> Result<V, Error>
    var values: seq<V>

    /** `hasValues`. */
    predicate HasValues()
      reads this
    {
      |values| > 0
    }

    /** A fresh parser has no values. */
    constructor(parser: string -> Result<V, Error>)
      ensures parseValue == parser && values == []
      ensures !HasValues()
    {
      parseValue := parser;
      values := [];
    }

    /** `parseOption`: the pieces of `value` parsed in order, the first error winning;
        nothing is stored. */
    method ParseOption(value: string) returns (result: Result<seq<V>, Error>)
      ensures result == ParsePieces(parseValue, Split(value))
    {
      var pieces := Split(value);
      result := Ok([]);
      var i := 0;
      while i < |pieces|
        invariant 0 <= i <= |pieces|
        invariant result == ParsePieces(parseValue, pieces[..i])
      {
        assert pieces[..i + 1][..i] == pieces[..i];
        if result.Ok? {
          var rest := parseValue(pieces[i]);
          if rest.Err? {
            result := Err(rest.error);
          } else {
            result := Ok(result.value + [rest.value]);
          }
        }
        i := i + 1;
      }
      assert pieces[..i] == pieces;
    }

    /**
     * `operator()`: the value must be present. On success the parsed values are appended
     * after those already held and no error is returned; on failure the error is returned
     * and the values are left as they were.
     */
    method Call(value: Optional<string>, ctx: Context) returns (err: Optional<Error>)
      requires value.Some?
      modifies this
      ensures var res := ParsePieces(parseValue, Split(value.value));
        if res.Ok? then err.None? && values == old(values) + res.value
        else err == Some(res.error) && values == old(values)
    {
      var res := ParseOption(value.value);
      if res.Err? {
        return Some(res.error);
      }
      var parsedValues := res.value;
      var k := 0;
      while k < |parsedValues|
        invariant 0 <= k <= |parsedValues|
        invariant values == old(values) + parsedValues[..k]
      {
        values := values + [parsedValues[k]];
        k := k + 1;
        assert parsedValues[..k] == parsedValues[..k - 1] + [parsedValues[k - 1]];
      }
      assert parsedValues[..k] == parsedValues;
      return None;
    }
  }

  /** Two successful calls accumulate: the values of the first value, then those of the
      second. */
  method CallTwice<V>(p: MultivalueParser<V>, first: string, second: string, ctx: Context)
    returns (e1: Optional<Error>, e2: Optional<Error>)
    modifies p
    ensures ParsePieces(p.parseValue, Split(first)).Ok? && ParsePieces(p.parseValue, Split(second)).Ok? ==>
      e1.None? && e2.None? &&
      p.values == old(p.values) + ParsePieces(p.parseValue, Split(first)).value + ParsePieces(p.parseValue, Split(second)).value
  {
    e1 := p.Call(Some(first), ctx);
    e2 := p.Call(Some(second), ctx);
  }
}
