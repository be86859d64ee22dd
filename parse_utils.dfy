/**
 * Value conversion (src/parseUtils.cpp, include/clime/parseUtils.hpp): textual values to
 * booleans and to signed and unsigned integers of 8, 16, 32 and 64 bits.
 *
 * The integer converters call `strtoll`/`strtoull` with base 0 (section 7.22.1.4 of ISO C11),
 * then range-check against the destination width. The C library part is modelled by
 * `ScanNumeral` (the subject sequence in the "C" locale) and `Strtoll`/`Strtoull`
 * (value, clamping and `ERANGE`).
 */
module ParseUtils {
  import opened Wrappers
  import opened ErrorCategory

  /** `conversionError`: every conversion failure is Solace's RANGE error tagged "Value Conversion". */
  function ConversionError(): Error {
    RangeFailure("Value Conversion")
  }

  // ---------------------------------------------------------------- booleans

  /** `tolower` of the "C" locale: ASCII letters only. */
  function ToLower(c: char): char {
    if 'A' <= c <= 'Z' then (c as int + 32) as char else c
  }

  /** `strncasecmp(value, word, min(|value|, |word|)) == 0`. */
  predicate CaseFoldedPrefix(value: string, word: string) {
    var n := if |value| < |word| then |value| else |word|;
    forall k :: 0 <= k < n ==> ToLower(value[k]) == ToLower(word[k])
  }

  /**
   * `tryParseBoolean`: "1", or any text whose first min(len, 4) characters match "true"
   * ignoring case, is true; otherwise "0", or a case-insensitive match against the first
   * min(len, 5) characters of "false", is false; anything else is a conversion error.
   */
  function TryParseBoolean(value: string): (r: Result<bool, Error>)
    ensures r.Err? ==> r.error == ConversionError()
  {
    if value == "1" || CaseFoldedPrefix(value, "true") then Ok(true)
    else if value == "0" || CaseFoldedPrefix(value, "false") then Ok(false)
    else Err(ConversionError())
  }

  /** The text with every character case-folded. */
  function Lowered(s: string): (r: string)
    ensures |r| == |s| && forall k :: 0 <= k < |s| ==> r[k] == ToLower(s[k])
  {
    if s == [] then [] else [ToLower(s[0])] + Lowered(s[1..])
  }

  /** Boolean parsing does not depend on letter case. */
  lemma BooleanIgnoresCase(value: string)
    ensures TryParseBoolean(Lowered(value)) == TryParseBoolean(value)
  {
    var l := Lowered(value);
    assert l == "1" <==> value == "1" by {
      if |value| == 1 { assert l[0] == ToLower(value[0]); }
    }
    assert l == "0" <==> value == "0" by {
      if |value| == 1 { assert l[0] == ToLower(value[0]); }
    }
    assert CaseFoldedPrefix(l, "true") <==> CaseFoldedPrefix(value, "true");
    assert CaseFoldedPrefix(l, "false") <==> CaseFoldedPrefix(value, "false");
  }

  /** Because the test for true runs first, the only text that passes both prefix tests
      is the empty text, and it converts to true. */
  lemma EmptyIsTrue(value: string)
    ensures CaseFoldedPrefix(value, "true") && CaseFoldedPrefix(value, "false") <==> value == []
    ensures TryParseBoolean([]) == Ok(true)
  {
    if value != [] {
      assert CaseFoldedPrefix(value, "true") ==> ToLower(value[0]) == 't';
      assert CaseFoldedPrefix(value, "false") ==> ToLower(value[0]) == 'f';
    }
  }

  /** Only a prefix is compared: whatever follows "true" or "false" is not looked at. */
  lemma BooleanIgnoresTail(tail: string)
    ensures TryParseBoolean("true" + tail) == Ok(true)
    ensures TryParseBoolean("TRUE" + tail) == Ok(true)
    ensures TryParseBoolean("false" + tail) == Ok(false)
    ensures TryParseBoolean("False" + tail) == Ok(false)
  {
    var f := "false" + tail;
    assert f != "1" by { assert |f| >= 5; }
    assert !CaseFoldedPrefix(f, "true") by { assert ToLower(f[0]) == 'f'; }
    var g := "False" + tail;
    assert g != "1" by { assert |g| >= 5; }
    assert !CaseFoldedPrefix(g, "true") by { assert ToLower(g[0]) == 'f'; }
  }

  /** Words the converter accepts and rejects. */
  lemma BooleanWords()
    ensures TryParseBoolean("1") == Ok(true) && TryParseBoolean("0") == Ok(false)
    ensures TryParseBoolean("t") == Ok(true) && TryParseBoolean("f") == Ok(false)
    ensures TryParseBoolean("maybe") == Err(ConversionError())
    ensures TryParseBoolean("10") == Err(ConversionError())
  {
    assert !CaseFoldedPrefix("maybe", "true") by { assert ToLower("maybe"[0]) != 't'; }
    assert !CaseFoldedPrefix("maybe", "false") by { assert ToLower("maybe"[1]) != 'a' || ToLower("maybe"[0]) != 'f'; }
    assert !CaseFoldedPrefix("10", "true") by { assert ToLower("10"[0]) != 't'; }
    assert !CaseFoldedPrefix("10", "false") by { assert ToLower("10"[0]) != 'f'; }
    assert !CaseFoldedPrefix("f", "true") by { assert ToLower("f"[0]) != 't'; }
  }

  // ---------------------------------------------------------------- integer widths

  /** The integer destination types of the converters. */
  datatype IntType = Int8 | Int16 | Int32 | Int64 | UInt8 | UInt16 | UInt32 | UInt64 {

    predicate IsSigned() {
      Int8? || Int16? || Int32? || Int64?
    }

    /** `std::numeric_limits<T>::min()`. */
    function Min(): int {
      match this
      case Int8 => -0x80
      case Int16 => -0x8000
      case Int32 => -0x8000_0000
      case Int64 => INT64_MIN
      case _ => 0
    }

    /** `std::numeric_limits<T>::max()`. */
    function Max(): int {
      match this
      case Int8 => 0x7F
      case Int16 => 0x7FFF
      case Int32 => 0x7FFF_FFFF
      case Int64 => INT64_MAX
      case UInt8 => 0xFF
      case UInt16 => 0xFFFF
      case UInt32 => 0xFFFF_FFFF
      case UInt64 => UINT64_MAX
    }
  }

  const INT64_MIN: int := -0x8000_0000_0000_0000
  const INT64_MAX: int := 0x7FFF_FFFF_FFFF_FFFF
  const UINT64_MAX: int := 0xFFFF_FFFF_FFFF_FFFF

  /** Every width lies inside the 64-bit range its converter parses through. */
  lemma WidthWithinIntermediate(t: IntType)
    ensures t.IsSigned() ==> INT64_MIN <= t.Min() <= 0 < t.Max() <= INT64_MAX
    ensures !t.IsSigned() ==> t.Min() == 0 < t.Max() <= UINT64_MAX
  {
  }

  // ---------------------------------------------------------------- strtoll / strtoull

  /** `isspace` of the "C" locale. */
  predicate IsSpace(c: char) {
    c == ' ' || c == '\t' || c == '\n' || c == '\U{B}' || c == '\U{C}' || c == '\r'
  }

  /** The value of a digit or letter as a digit (letters count from 10); 36 for anything else. */
  function DigitValue(c: char): nat {
    if '0' <= c <= '9' then c as nat - '0' as nat
    else if 'a' <= c <= 'z' then c as nat - 'a' as nat + 10
    else if 'A' <= c <= 'Z' then c as nat - 'A' as nat + 10
    else 36
  }

  predicate IsDigit(c: char, base: nat) {
    DigitValue(c) < base
  }

  /** Number of leading white-space characters. */
  function LeadingSpaces(s: string): (n: nat)
    ensures n <= |s|
    ensures forall k :: 0 <= k < n ==> IsSpace(s[k])
    ensures n < |s| ==> !IsSpace(s[n])
  {
    if |s| > 0 && IsSpace(s[0]) then 1 + LeadingSpaces(s[1..]) else 0
  }

  /** Length of the longest prefix made of digits of `base`. */
  function DigitRun(s: string, base: nat): (n: nat)
    ensures n <= |s|
    ensures forall k :: 0 <= k < n ==> IsDigit(s[k], base)
    ensures n < |s| ==> !IsDigit(s[n], base)
  {
    if |s| > 0 && IsDigit(s[0], base) then 1 + DigitRun(s[1..], base) else 0
  }

  /** The value of a digit string, most significant digit first. */
  function DigitsValue(ds: string, base: nat): nat {
    if ds == [] then 0 else DigitsValue(ds[..|ds| - 1], base) * base + DigitValue(ds[|ds| - 1])
  }

  /** The subject sequence found by `strtoll`/`strtoull`: sign, magnitude, and the index just
      past its last digit (what `endptr` points at). */
  datatype Numeral = Numeral(negative: bool, magnitude: nat, end: nat)

  /** A hexadecimal constant starts here: "0x" or "0X" followed by a hex digit. */
  predicate HexPrefix(body: string) {
    |body| >= 3 && body[0] == '0' && (body[1] == 'x' || body[1] == 'X') && IsDigit(body[2], 16)
  }

  /** Value and length of an unsigned integer constant. */
  datatype Constant = Constant(magnitude: nat, length: nat)

  /**
   * The longest initial integer constant of `body`: a hexadecimal constant ("0x" or "0X"
   * and at least one hex digit), an octal constant (a "0" and octal digits) or a decimal
   * constant (a non-zero digit and decimal digits). A "0x" with no hex digit after it is the
   * octal constant "0".
   */
  function ScanConstant(body: string): (r: Optional<Constant>)
    ensures r.Some? ==> 0 < r.value.length <= |body|
  {
    if HexPrefix(body) then
      var n := DigitRun(body[2..], 16);
      Some(Constant(DigitsValue(body[2..2 + n], 16), 2 + n))
    else if |body| >= 1 && body[0] == '0' then
      var n := DigitRun(body, 8);
      Some(Constant(DigitsValue(body[..n], 8), n))
    else
      var n := DigitRun(body, 10);
      if n == 0 then None else Some(Constant(DigitsValue(body[..n], 10), n))
  }

  /** Index of the first character after the white space and the optional sign. */
  function BodyStart(s: string): (j: nat)
    ensures LeadingSpaces(s) <= j <= LeadingSpaces(s) + 1 && j <= |s|
  {
    var w := LeadingSpaces(s);
    if w < |s| && (s[w] == '-' || s[w] == '+') then w + 1 else w
  }

  /**
   * The subject sequence base 0 expects: optional white space, an optional sign, then an
   * integer constant. `None` means no conversion could be performed.
   */
  function ScanNumeral(s: string): (r: Optional<Numeral>)
    ensures r.Some? ==> LeadingSpaces(s) < r.value.end <= |s|
  {
    var w := LeadingSpaces(s);
    var j := BodyStart(s);
    match ScanConstant(s[j..])
    case None => None
    case Some(c) => Some(Numeral(w < |s| && s[w] == '-', c.magnitude, j + c.length))
  }

  /** What `strtoll`/`strtoull` give back: the returned value, whether `errno` became
      `ERANGE`, and whether `endptr` moved past the start. */
  datatype Conversion = Conversion(value: int, erange: bool, converted: bool)

  function SignedValue(n: Numeral): int {
    if n.negative then -(n.magnitude as int) else n.magnitude
  }

  /** `strtoll(s, &end, 0)`: out-of-range values are clamped with `ERANGE`. */
  function Strtoll(s: string): (c: Conversion)
    ensures INT64_MIN <= c.value <= INT64_MAX
    ensures c.converted <==> ScanNumeral(s).Some?
  {
    match ScanNumeral(s)
    case None => Conversion(0, false, false)
    case Some(n) =>
      var v := SignedValue(n);
      if v > INT64_MAX then Conversion(INT64_MAX, true, true)
      else if v < INT64_MIN then Conversion(INT64_MIN, true, true)
      else Conversion(v, false, true)
  }

  /** The value `strtoull` returns for a magnitude it can represent: a minus sign negates it
      in the unsigned type, so "-1" becomes the largest unsigned value. */
  function UnsignedValue(n: Numeral): int {
    if n.negative then (UINT64_MAX + 1 - n.magnitude) % (UINT64_MAX + 1) else n.magnitude
  }

  /** `strtoull(s, &end, 0)`: a magnitude beyond the unsigned range is clamped with `ERANGE`. */
  function Strtoull(s: string): (c: Conversion)
    ensures 0 <= c.value <= UINT64_MAX
    ensures c.converted <==> ScanNumeral(s).Some?
  {
    match ScanNumeral(s)
    case None => Conversion(0, false, false)
    case Some(n) =>
      if n.magnitude > UINT64_MAX then Conversion(UINT64_MAX, true, true)
      else Conversion(UnsignedValue(n), false, true)
  }

  // ---------------------------------------------------------------- Longest<T, signed>::parse

  /** `Longest<T, true>::parse`: overflow of the 64-bit parse, no conversion, or a value
      outside T are errors; otherwise the narrowed value. */
  function ParseSigned(t: IntType, value: string): (r: Result<int, Error>)
    requires t.IsSigned()
    ensures r.Ok? ==> t.Min() <= r.value <= t.Max()
    ensures r.Err? ==> r.error == ConversionError()
  {
    var c := Strtoll(value);
    if (c.erange && (c.value == INT64_MAX || c.value == INT64_MIN)) || (c.erange && c.value == 0) then
      Err(ConversionError())
    else if !c.converted then
      Err(ConversionError())
    else if c.value > t.Max() || c.value < t.Min() then
      Err(ConversionError())
    else
      Ok(c.value)
  }

  /** `Longest<T, false>::parse`, the same checks through `strtoull`. */
  function ParseUnsigned(t: IntType, value: string): (r: Result<int, Error>)
    requires !t.IsSigned()
    ensures r.Ok? ==> t.Min() <= r.value <= t.Max()
    ensures r.Err? ==> r.error == ConversionError()
  {
    var c := Strtoull(value);
    if (c.erange && c.value == UINT64_MAX) || (c.erange && c.value == 0) then
      Err(ConversionError())
    else if !c.converted then
      Err(ConversionError())
    else if c.value > t.Max() || c.value < t.Min() then
      Err(ConversionError())
    else
      Ok(c.value)
  }

  /** A signed conversion succeeds exactly when a numeral is found whose value lies in T,
      and then yields that value. */
  lemma ParseSignedMeaning(t: IntType, value: string)
    requires t.IsSigned()
    ensures ParseSigned(t, value).Ok? <==>
      ScanNumeral(value).Some? && t.Min() <= SignedValue(ScanNumeral(value).value) <= t.Max()
    ensures ParseSigned(t, value).Ok? ==> ParseSigned(t, value).value == SignedValue(ScanNumeral(value).value)
  {
    WidthWithinIntermediate(t);
  }

  /** An unsigned conversion succeeds exactly when a numeral is found whose magnitude fits
      64 bits and whose (possibly negated) value lies in T. */
  lemma ParseUnsignedMeaning(t: IntType, value: string)
    requires !t.IsSigned()
    ensures ParseUnsigned(t, value).Ok? <==>
      ScanNumeral(value).Some? && ScanNumeral(value).value.magnitude <= UINT64_MAX &&
      UnsignedValue(ScanNumeral(value).value) <= t.Max()
    ensures ParseUnsigned(t, value).Ok? ==> ParseUnsigned(t, value).value == UnsignedValue(ScanNumeral(value).value)
  {
    WidthWithinIntermediate(t);
    var c := Strtoull(value);
    if ScanNumeral(value).Some? && ScanNumeral(value).value.magnitude <= UINT64_MAX {
      var n := ScanNumeral(value).value;
      assert c == Conversion(UnsignedValue(n), false, true);
    }
  }

  // ---------------------------------------------------------------- trailing characters

  /** `LeadingSpaces` is characterised by its postconditions. */
  lemma LeadingSpacesUnique(s: string, n: nat)
    requires n <= |s| && (forall k :: 0 <= k < n ==> IsSpace(s[k])) && (n < |s| ==> !IsSpace(s[n]))
    ensures LeadingSpaces(s) == n
  {
  }

  /** `DigitRun` is characterised by its postconditions. */
  lemma DigitRunUnique(s: string, base: nat, n: nat)
    requires n <= |s| && (forall k :: 0 <= k < n ==> IsDigit(s[k], base)) && (n < |s| ==> !IsDigit(s[n], base))
    ensures DigitRun(s, base) == n
  {
  }

  lemma LeadingSpacesOfPrefix(s: string, e: nat)
    requires LeadingSpaces(s) < e <= |s|
    ensures LeadingSpaces(s[..e]) == LeadingSpaces(s)
  {
    LeadingSpacesUnique(s[..e], LeadingSpaces(s));
  }

  lemma DigitRunOfPrefix(s: string, e: nat, base: nat)
    requires DigitRun(s, base) <= e <= |s|
    ensures DigitRun(s[..e], base) == DigitRun(s, base)
  {
    var n := DigitRun(s, base);
    if n < e {
      assert s[..e][n] == s[n];
    }
    DigitRunUnique(s[..e], base, n);
  }

  /** A constant cut just after its last digit scans to the same constant. */
  lemma ConstantOfPrefix(body: string)
    requires ScanConstant(body).Some?
    ensures ScanConstant(body[..ScanConstant(body).value.length]) == ScanConstant(body)
  {
    var e := ScanConstant(body).value.length;
    var p := body[..e];
    if HexPrefix(body) {
      var r := DigitRun(body[2..], 16);
      assert e == 2 + r;
      assert p[..3] == body[..3];
      assert HexPrefix(p);
      assert p[2..] == body[2..][..r];
      DigitRunOfPrefix(body[2..], r, 16);
      assert p[2..2 + r] == body[2..2 + r];
    } else if |body| >= 1 && body[0] == '0' {
      DigitRunOfPrefix(body, e, 8);
      assert p[..e] == body[..e];
    } else {
      DigitRunOfPrefix(body, e, 10);
      assert p[..e] == body[..e];
    }
  }

  /** Characters after the numeral are never looked at: the text cut at the end of its
      numeral scans to the same numeral. */
  lemma TrailingIgnored(s: string)
    requires ScanNumeral(s).Some?
    ensures ScanNumeral(s[..ScanNumeral(s).value.end]) == ScanNumeral(s)
  {
    var e := ScanNumeral(s).value.end;
    var p := s[..e];
    var w := LeadingSpaces(s);
    LeadingSpacesOfPrefix(s, e);
    assert p[w] == s[w];
    var j := BodyStart(s);
    assert BodyStart(p) == j;
    var c := ScanConstant(s[j..]).value;
    assert e == j + c.length;
    assert j + c.length <= |s|;
    assert p[j..] == s[j..e];
    var body := s[j..];
    assert body[..c.length] == s[j..e] by {
      assert |body[..c.length]| == |s[j..e]|;
      forall k | 0 <= k < c.length
        ensures body[..c.length][k] == s[j..e][k]
      {
        assert body[k] == s[j + k];
      }
    }
    ConstantOfPrefix(s[j..]);
  }

  /** Integer conversion does not reject trailing characters: a text converts like the
      numeral it starts with. */
  lemma TrailingIgnoredByConverters(t: IntType, s: string)
    requires ScanNumeral(s).Some?
    ensures t.IsSigned() ==> ParseSigned(t, s) == ParseSigned(t, s[..ScanNumeral(s).value.end])
    ensures !t.IsSigned() ==> ParseUnsigned(t, s) == ParseUnsigned(t, s[..ScanNumeral(s).value.end])
  {
    TrailingIgnored(s);
  }

  // ---------------------------------------------------------------- base 0

  /** A leading zero digit does not change a digit string's value. */
  lemma {:induction false} LeadingZero(ds: string, base: nat)
    ensures DigitsValue("0" + ds, base) == DigitsValue(ds, base)
    decreases |ds|
  {
    if ds == [] {
      assert ("0" + ds)[..0] == [];
    } else {
      var n := |ds| - 1;
      assert ("0" + ds)[..|ds|] == "0" + ds[..n];
      LeadingZero(ds[..n], base);
    }
  }

  /** Base 0 reads "0x" or "0X" followed by hex digits as a hexadecimal constant. */
  lemma HexConstant(x: char, ds: string, t: string)
    requires x == 'x' || x == 'X'
    requires |ds| > 0 && forall k :: 0 <= k < |ds| ==> IsDigit(ds[k], 16)
    requires t == [] || !IsDigit(t[0], 16)
    ensures ScanConstant(['0', x] + ds + t) == Some(Constant(DigitsValue(ds, 16), 2 + |ds|))
  {
    var tail := ds + t;
    var body := ['0', x] + tail;
    assert ['0', x] + ds + t == body;
    assert body[2..] == tail && body[2] == ds[0];
    assert HexPrefix(body);
    RunBeforeStop(ds, t, 16);
    assert body[2..2 + |ds|] == ds;
  }

  /** The digit run of a digit string followed by a non-digit is that string. */
  lemma RunBeforeStop(ds: string, t: string, base: nat)
    requires forall k :: 0 <= k < |ds| ==> IsDigit(ds[k], base)
    requires t == [] || !IsDigit(t[0], base)
    ensures DigitRun(ds + t, base) == |ds|
  {
    var s := ds + t;
    assert forall k :: 0 <= k < |ds| ==> s[k] == ds[k];
    if |ds| < |s| {
      assert s[|ds|] == t[0];
    }
    DigitRunUnique(s, base, |ds|);
  }

  /** Base 0 reads a "0" followed by octal digits as an octal constant, unless the "0" starts
      a hexadecimal constant. */
  lemma OctalConstant(ds: string, t: string)
    requires forall k :: 0 <= k < |ds| ==> IsDigit(ds[k], 8)
    requires t == [] || !IsDigit(t[0], 8)
    requires ds != [] || !HexPrefix("0" + t)
    ensures ScanConstant("0" + ds + t) == Some(Constant(DigitsValue(ds, 8), 1 + |ds|))
  {
    var zds := "0" + ds;
    var body := zds + t;
    assert "0" + ds + t == body;
    if ds != [] {
      assert body[1] == ds[0];
      assert DigitValue(ds[0]) < 8;
    } else {
      assert body == "0" + t;
    }
    assert !HexPrefix(body);
    assert forall k :: 0 <= k < |zds| ==> IsDigit(zds[k], 8) by {
      forall k | 0 <= k < |zds| ensures IsDigit(zds[k], 8) {
        if k > 0 { assert zds[k] == ds[k - 1]; }
      }
    }
    RunBeforeStop(zds, t, 8);
    assert body[..|zds|] == zds;
    LeadingZero(ds, 8);
  }

  /** Base 0 reads a non-zero decimal digit followed by decimal digits as a decimal constant. */
  lemma DecimalConstant(ds: string, t: string)
    requires |ds| > 0 && ds[0] != '0' && forall k :: 0 <= k < |ds| ==> IsDigit(ds[k], 10)
    requires t == [] || !IsDigit(t[0], 10)
    ensures ScanConstant(ds + t) == Some(Constant(DigitsValue(ds, 10), |ds|))
  {
    var body := ds + t;
    assert body[0] == ds[0];
    DigitRunUnique(body, 10, |ds|);
    assert body[..|ds|] == ds;
  }

  /** A text with no white space or sign in front converts as the constant it starts with. */
  lemma UnsignedText(s: string)
    requires |s| > 0 && '0' <= s[0] <= '9'
    ensures ScanNumeral(s) == match ScanConstant(s)
      case None => None
      case Some(c) => Some(Numeral(false, c.magnitude, c.length))
  {
    assert LeadingSpaces(s) == 0;
    assert s[0..] == s;
  }

  /** An unsigned constant opening the text converts to its value when that fits 32 bits. */
  lemma ConstantConverts(s: string, c: Constant)
    requires |s| > 0 && '0' <= s[0] <= '9' && ScanConstant(s) == Some(c) && c.magnitude <= 0x7FFF_FFFF
    ensures TryParseInt32(s) == Ok(c.magnitude)
  {
    UnsignedText(s);
    ParseSignedMeaning(Int32, s);
  }

  /** Base 0 at work: "0x1F" is hexadecimal 31. */
  lemma HexExample()
    ensures TryParseInt32("0x1F") == Ok(31)
  {
    assert DigitsValue("1F", 16) == 31 by { assert "1F"[..1] == "1"; assert "1"[..0] == []; }
    HexConstant('x', "1F", "");
    assert ['0', 'x'] + "1F" + "" == "0x1F";
    ConstantConverts("0x1F", Constant(31, 4));
  }

  /** "010" is octal 8. */
  lemma OctalExample()
    ensures TryParseInt32("010") == Ok(8)
  {
    assert DigitsValue("10", 8) == 8 by { assert "10"[..1] == "1"; assert "1"[..0] == []; }
    OctalConstant("10", "");
    assert "0" + "10" + "" == "010";
    ConstantConverts("010", Constant(8, 3));
  }

  /** "0x" with no hex digit after it is the octal constant "0", followed by "x". */
  lemma BareHexPrefixExample()
    ensures TryParseInt32("0x") == Ok(0)
  {
    OctalConstant("", "x");
    assert "0" + "" + "x" == "0x";
    ConstantConverts("0x", Constant(0, 1));
  }

  /** "08" is the octal constant "0", followed by "8", which no octal constant contains. */
  lemma NonOctalDigitExample()
    ensures TryParseInt32("08") == Ok(0)
  {
    OctalConstant("", "8");
    assert "0" + "" + "8" == "08";
    ConstantConverts("08", Constant(0, 1));
  }

  // ---------------------------------------------------------------- round trip through decimal text

  function DigitChar(d: nat): (c: char)
    requires d < 10
    ensures IsDigit(c, 10) && DigitValue(c) == d
  {
    ('0' as int + d) as char
  }

  /** The shortest decimal numeral of `n`. */
  function DecimalDigits(n: nat): (s: string)
    ensures |s| > 0
    decreases n
  {
    if n < 10 then [DigitChar(n)] else DecimalDigits(n / 10) + [DigitChar(n % 10)]
  }

  /** Decimal text of an integer, with a leading minus sign when negative. */
  function FormatInt(v: int): string {
    if v < 0 then "-" + DecimalDigits(-v) else DecimalDigits(v)
  }

  lemma {:induction false} DecimalDigitsShape(n: nat)
    ensures forall k :: 0 <= k < |DecimalDigits(n)| ==> IsDigit(DecimalDigits(n)[k], 10)
    ensures DigitsValue(DecimalDigits(n), 10) == n
    ensures (n == 0) <==> DecimalDigits(n)[0] == '0'
    decreases n
  {
    if n >= 10 {
      DecimalDigitsShape(n / 10);
      var s := DecimalDigits(n / 10) + [DigitChar(n % 10)];
      assert s[..|s| - 1] == DecimalDigits(n / 10);
      assert s[0] == DecimalDigits(n / 10)[0];
    }
  }

  lemma {:induction false} FullRun(s: string, base: nat)
    requires forall k :: 0 <= k < |s| ==> IsDigit(s[k], base)
    ensures DigitRun(s, base) == |s|
    decreases |s|
  {
    if |s| > 0 {
      FullRun(s[1..], base);
    }
  }

  /** The decimal text of a natural number scans as one whole constant. */
  lemma ScanDecimal(m: nat)
    ensures ScanConstant(DecimalDigits(m)) == Some(Constant(m, |DecimalDigits(m)|))
  {
    var d := DecimalDigits(m);
    DecimalDigitsShape(m);
    if m == 0 {
      assert d == "0";
      FullRun(d, 8);
      assert d[..1] == d;
      assert DigitsValue(d, 8) == 0 by { assert d[..0] == []; }
    } else {
      FullRun(d, 10);
      assert d[..|d|] == d;
    }
  }

  /** Formatting then scanning gives back the sign, the magnitude and the whole text. */
  lemma ScanFormatted(v: int)
    ensures ScanNumeral(FormatInt(v)) == Some(Numeral(v < 0, if v < 0 then -v else v, |FormatInt(v)|))
  {
    var m: nat := if v < 0 then -v else v;
    var s := FormatInt(v);
    ScanDecimal(m);
    assert LeadingSpaces(s) == 0 by { assert !IsSpace(s[0]); }
    if v < 0 {
      assert s[1..] == DecimalDigits(m);
    } else {
      assert s[0..] == DecimalDigits(m);
      assert s[0] != '-' by { DecimalDigitsShape(m); }
    }
  }

  /** Every value of a signed width converts back from its decimal text; a value outside
      the width is a conversion error (boundaries included: -128 and 127 for 8 bits). */
  lemma SignedRoundTrip(t: IntType, v: int)
    requires t.IsSigned()
    ensures ParseSigned(t, FormatInt(v)) == if t.Min() <= v <= t.Max() then Ok(v) else Err(ConversionError())
  {
    ScanFormatted(v);
    ParseSignedMeaning(t, FormatInt(v));
  }

  /** Every value of an unsigned width converts back from its decimal text, up to and
      including the 64-bit maximum; larger values are conversion errors. */
  lemma UnsignedRoundTrip(t: IntType, v: nat)
    requires !t.IsSigned()
    ensures ParseUnsigned(t, FormatInt(v)) == if v <= t.Max() then Ok(v) else Err(ConversionError())
  {
    ScanFormatted(v);
    ParseUnsignedMeaning(t, FormatInt(v));
  }

  lemma NegatedValue(m: nat, end: nat)
    requires 0 < m <= UINT64_MAX
    ensures UnsignedValue(Numeral(true, m, end)) == UINT64_MAX + 1 - m
  {
    var x := UINT64_MAX + 1 - m;
    assert 0 <= x < UINT64_MAX + 1;
  }

  /** `strtoull` accepts a minus sign: "-m" converts to 2^64 - m, so "-1" is the largest
      64-bit value and is rejected by every narrower width. */
  lemma UnsignedNegation(t: IntType, m: nat)
    requires !t.IsSigned() && 0 < m <= UINT64_MAX
    ensures ParseUnsigned(t, FormatInt(-(m as int))) ==
      if UINT64_MAX + 1 - m <= t.Max() then Ok(UINT64_MAX + 1 - m) else Err(ConversionError())
  {
    ScanFormatted(-(m as int));
    ParseUnsignedMeaning(t, FormatInt(-(m as int)));
    NegatedValue(m, |FormatInt(-(m as int))|);
  }

  // ---------------------------------------------------------------- tryParse<T>

  function TryParseInt8(value: string): (r: Result<int, Error>)
    ensures r.Ok? ==> -0x80 <= r.value <= 0x7F
  {
    ParseSigned(Int8, value)
  }

  function TryParseInt16(value: string): (r: Result<int, Error>)
    ensures r.Ok? ==> -0x8000 <= r.value <= 0x7FFF
  {
    ParseSigned(Int16, value)
  }

  function TryParseInt32(value: string): (r: Result<int, Error>)
    ensures r.Ok? ==> -0x8000_0000 <= r.value <= 0x7FFF_FFFF
  {
    ParseSigned(Int32, value)
  }

  function TryParseInt64(value: string): (r: Result<int, Error>)
    ensures r.Ok? ==> INT64_MIN <= r.value <= INT64_MAX
  {
    ParseSigned(Int64, value)
  }

  function TryParseUInt8(value: string): (r: Result<int, Error>)
    ensures r.Ok? ==> 0 <= r.value <= 0xFF
  {
    ParseUnsigned(UInt8, value)
  }

  function TryParseUInt16(value: string): (r: Result<int, Error>)
    ensures r.Ok? ==> 0 <= r.value <= 0xFFFF
  {
    ParseUnsigned(UInt16, value)
  }

  function TryParseUInt32(value: string): (r: Result<int, Error>)
    ensures r.Ok? ==> 0 <= r.value <= 0xFFFF_FFFF
  {
    ParseUnsigned(UInt32, value)
  }

  function TryParseUInt64(value: string): (r: Result<int, Error>)
    ensures r.Ok? ==> 0 <= r.value <= UINT64_MAX
  {
    ParseUnsigned(UInt64, value)
  }

  /** `tryParse<T>` for the integer types: each width goes to its own converter. */
  function TryParseInt(t: IntType, value: string): (r: Result<int, Error>)
    ensures r.Ok? ==> t.Min() <= r.value <= t.Max()
    ensures r.Err? ==> r.error == ConversionError()
    ensures t.IsSigned() ==> r == ParseSigned(t, value)
    ensures !t.IsSigned() ==> r == ParseUnsigned(t, value)
  {
    match t
    case Int8 => TryParseInt8(value)
    case Int16 => TryParseInt16(value)
    case Int32 => TryParseInt32(value)
    case Int64 => TryParseInt64(value)
    case UInt8 => TryParseUInt8(value)
    case UInt16 => TryParseUInt16(value)
    case UInt32 => TryParseUInt32(value)
    case UInt64 => TryParseUInt64(value)
  }

  /** The largest signed 8-bit value converts; one more does not. */
  lemma Int8Upper()
    ensures TryParseInt8("127") == Ok(127) && TryParseInt8("128").Err?
  {
    SignedRoundTrip(Int8, 127);
    assert FormatInt(127) == "127";
    SignedRoundTrip(Int8, 128);
    assert FormatInt(128) == "128";
  }

  /** The smallest signed 8-bit value converts. */
  lemma Int8Lower()
    ensures TryParseInt8("-128") == Ok(-128)
  {
    SignedRoundTrip(Int8, -128);
    assert FormatInt(-128) == "-128";
  }

  /** "-1" is the largest 64-bit unsigned value, and too large for 32 bits. */
  lemma MinusOneUnsigned()
    ensures TryParseUInt64("-1") == Ok(UINT64_MAX) && TryParseUInt32("-1").Err?
  {
    UnsignedNegation(UInt64, 1);
    UnsignedNegation(UInt32, 1);
    assert FormatInt(-1) == "-1";
  }
}
