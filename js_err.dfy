/**
 * An exception coming from the JavaScript engine (`JsError`) and its two
 * text forms: the one-line `Display` and the multi-line `Debug` with the
 * source line, a caret marker and the stack trace.
 */
module JsErr {
  import opened Numeric
  import opened Common

  /** The exception's details; each field is read through its accessor of the same name. */
  datatype JsError = JsError(
    message: string,
    resourceName: string,
    sourceLine: Option<string>,
    lineNumber: Option<i64>,
    startColumn: Option<i64>,
    endColumn: Option<i64>,
    stack: Option<string>)

  // ---------------------------------------------------------------------------
  // Decimal formatting of integers (`{}` on an `i64`)
  // ---------------------------------------------------------------------------

  /** The decimal digit character of `d`. */
  function DigitChar(d: nat): (c: char)
    requires d < 10
    ensures '0' <= c <= '9' && c as int - '0' as int == d
  {
    ['0', '1', '2', '3', '4', '5', '6', '7', '8', '9'][d]
  }

  predicate IsDigit(c: char) { '0' <= c <= '9' }

  predicate AllDigits(s: string) { forall i :: 0 <= i < |s| ==> IsDigit(s[i]) }

  /** The value of a string of decimal digits. */
  function DigitsValue(s: string): (n: nat)
    requires AllDigits(s)
  {
    if s == [] then 0
    else
      assert IsDigit(s[|s| - 1]);
      DigitsValue(s[..|s| - 1]) * 10 + (s[|s| - 1] as int - '0' as int)
  }

  /** `n` in decimal: digits only, most significant first, no leading zero. */
  function NatToDecimal(n: nat): (r: string)
    ensures r != [] && AllDigits(r)
    ensures |r| > 1 ==> r[0] != '0'
  {
    if n < 10 then [DigitChar(n)] else NatToDecimal(n / 10) + [DigitChar(n % 10)]
  }

  /** `n` in decimal, with a leading `-` when negative. */
  function IntToDecimal(n: int): (r: string)
  {
    if n < 0 then "-" + NatToDecimal(-n) else NatToDecimal(n)
  }

  /** Reading the digits back gives the number. */
  lemma {:induction false} NatToDecimalValue(n: nat)
    ensures DigitsValue(NatToDecimal(n)) == n
  {
    if n >= 10 {
      NatToDecimalValue(n / 10);
      var r := NatToDecimal(n);
      assert r[..|r| - 1] == NatToDecimal(n / 10);
    }
  }

  /** The integer written by `IntToDecimal`, or `None` when `s` is not one. */
  function ParseDecimal(s: string): (r: Option<int>)
  {
    if |s| > 1 && s[0] == '-' && AllDigits(s[1..]) then
      var magnitude: int := DigitsValue(s[1..]);
      Some(-magnitude)
    else if s != [] && AllDigits(s) then
      Some(DigitsValue(s))
    else
      None
  }

  /** A minus sign followed by digits reads as the negated value of the digits. */
  lemma ParseNegative(digits: string)
    requires digits != [] && AllDigits(digits)
    ensures ParseDecimal("-" + digits) == Some(-(DigitsValue(digits) as int))
  {
    assert ("-" + digits)[1..] == digits;
  }

  /** Digits alone read as their value. */
  lemma ParseDigits(digits: string)
    requires digits != [] && AllDigits(digits)
    ensures ParseDecimal(digits) == Some(DigitsValue(digits))
  {
    assert IsDigit(digits[0]);
  }

  /** Every decimal text reads back as the integer it was made from. */
  lemma IntToDecimalRoundTrip(n: int)
    ensures ParseDecimal(IntToDecimal(n)) == Some(n)
  {
    if n < 0 {
      NatToDecimalValue(-n);
      ParseNegative(NatToDecimal(-n));
    } else {
      NatToDecimalValue(n);
      ParseDigits(NatToDecimal(n));
    }
  }

  /** Different integers are written differently. */
  lemma IntToDecimalInjective(m: int, n: int)
    requires IntToDecimal(m) == IntToDecimal(n)
    ensures m == n
  {
    IntToDecimalRoundTrip(m);
    IntToDecimalRoundTrip(n);
  }

  // ---------------------------------------------------------------------------
  // Display and Debug
  // ---------------------------------------------------------------------------

  /** The first line of both forms. */
  function Header(e: JsError): string
  {
    "Uncaught " + e.message
  }

  /**
   * `Display`: `Uncaught <message> (<resource>:<line>:<column>)`, a missing
   * line number or start column written as 0.
   */
  function Display(e: JsError): string
  {
    var line := e.lineNumber.UnwrapOr(0);
    var column := e.startColumn.UnwrapOr(0);
    Header(e) + " (" + e.resourceName + ":" + IntToDecimal(line) + ":" + IntToDecimal(column) + ")"
  }

  /**
   * `Display` reads the message, the resource name, the line number and the
   * start column only: two errors that agree on those display alike.
   */
  lemma DisplayReadsLocationOnly(e: JsError, f: JsError)
    requires e.message == f.message && e.resourceName == f.resourceName
    requires e.lineNumber.UnwrapOr(0) == f.lineNumber.UnwrapOr(0)
    requires e.startColumn.UnwrapOr(0) == f.startColumn.UnwrapOr(0)
    ensures Display(e) == Display(f)
  {
  }

  /**
   * The location `Display` writes reads back as the line number and start
   * column, 0 standing for a missing one.
   */
  lemma DisplayLocation(e: JsError)
    ensures var line, column := e.lineNumber.UnwrapOr(0), e.startColumn.UnwrapOr(0);
      var tail := e.resourceName + ":" + IntToDecimal(line) + ":" + IntToDecimal(column) + ")";
      && Display(e) == Header(e) + " (" + tail
      && ParseDecimal(IntToDecimal(line)) == Some(line)
      && ParseDecimal(IntToDecimal(column)) == Some(column)
  {
    IntToDecimalRoundTrip(e.lineNumber.UnwrapOr(0));
    IntToDecimalRoundTrip(e.startColumn.UnwrapOr(0));
  }

  /** The caret marker under the source line: `start` spaces, then a `'^'` for each column of `[start, end)`. */
  function Marker(start: int, end: int): (r: string)
    ensures |r| == Max(start, 0) + Max(end - start, 0)
    ensures forall i :: 0 <= i < Max(start, 0) ==> r[i] == ' '
    ensures forall i :: Max(start, 0) <= i < |r| ==> r[i] == '^'
  {
    Repeat(' ', Max(start, 0)) + Repeat('^', Max(end - start, 0))
  }

  /**
   * `Debug`: the header; then, only for a non-empty source line, the source
   * line on its own line, the caret marker (missing columns taken as 0) and,
   * when there is one, the stack on the next line.
   */
  function DebugText(e: JsError): string
  {
    if e.sourceLine.Some? && e.sourceLine.value != [] then
      Header(e) + "\n" + e.sourceLine.value + "\n"
        + Marker(e.startColumn.UnwrapOr(0), e.endColumn.UnwrapOr(0))
        + (if e.stack.Some? then "\n" + e.stack.value else "")
    else
      Header(e)
  }

  /**
   * `Debug::fmt`: writes the header, then the source line, then one space per
   * column before the start column and one caret per column up to the end
   * column, then the stack; the text written is `DebugText(e)`.
   */
  method FormatDebug(e: JsError) returns (out: string)
    ensures out == DebugText(e)
  {
    out := "Uncaught " + e.message;
    if e.sourceLine.Some? && e.sourceLine.value != [] {
      var sourceLine := e.sourceLine.value;
      out := out + "\n" + sourceLine + "\n";
      ghost var head := out;
      var startColumn := e.startColumn.UnwrapOr(0);
      var endColumn := e.endColumn.UnwrapOr(0);

      var i := 0;
      while i < startColumn
        invariant 0 <= i <= Max(startColumn, 0)
        invariant out == head + Repeat(' ', i)
      {
        out := out + " ";
        i := i + 1;
      }
      ghost var spaced := out;

      var j := startColumn;
      while j < endColumn
        invariant startColumn <= j && j - startColumn <= Max(endColumn - startColumn, 0)
        invariant out == spaced + Repeat('^', j - startColumn)
      {
        out := out + "^";
        j := j + 1;
      }
      assert out == head + Marker(startColumn, endColumn);

      if e.stack.Some? {
        out := out + "\n" + e.stack.value;
      }
    }
  }

  /** Both forms start with `Uncaught <message>`. */
  lemma DebugStartsWithHeader(e: JsError)
    ensures |Header(e)| <= |DebugText(e)| && DebugText(e)[..|Header(e)|] == Header(e)
    ensures |Header(e)| <= |Display(e)| && Display(e)[..|Header(e)|] == Header(e)
  {
  }

  /** Without a source line, or with an empty one, `Debug` is the header alone, even when a stack is present. */
  lemma DebugWithoutSourceLine(e: JsError)
    requires e.sourceLine.None? || e.sourceLine.value == []
    ensures DebugText(e) == Header(e)
  {
  }

  /**
   * With a non-empty source line, the stack is appended on a line of its own
   * exactly when there is one: `Debug` is what it would be without the stack,
   * followed by `"\n" + stack`.
   */
  lemma DebugStack(e: JsError)
    requires e.sourceLine.Some? && e.sourceLine.value != []
    ensures DebugText(e) == DebugText(e.(stack := None)) + (if e.stack.Some? then "\n" + e.stack.value else "")
    ensures e.stack.None? ==> DebugText(e) == DebugText(e.(stack := None))
  {
  }

  /**
   * With a non-empty source line, the marker line holds `max(start, 0)` spaces
   * then `max(end - start, 0)` carets, missing columns taken as 0.
   */
  lemma DebugMarker(e: JsError)
    requires e.sourceLine.Some? && e.sourceLine.value != [] && e.stack.None?
    ensures var start, end := e.startColumn.UnwrapOr(0), e.endColumn.UnwrapOr(0);
      var prefix := Header(e) + "\n" + e.sourceLine.value + "\n";
      var marker := DebugText(e)[|prefix|..];
      && |prefix| <= |DebugText(e)| && DebugText(e)[..|prefix|] == prefix
      && |marker| == Max(start, 0) + Max(end - start, 0)
      && (forall i :: 0 <= i < Max(start, 0) ==> marker[i] == ' ')
      && (forall i :: Max(start, 0) <= i < |marker| ==> marker[i] == '^')
  {
  }
}
