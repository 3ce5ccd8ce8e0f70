/** The errors the server raises (`McpError(ErrorData(code, message))`) and
    the two error categories it distinguishes: caller-input errors
    (INVALID_PARAMS) and upstream or parsing failures (INTERNAL_ERROR). */
module Errors {

  /** JSON-RPC error codes, as the MCP library defines them. */
  const INVALID_PARAMS: int := -32602
  const INTERNAL_ERROR: int := -32603

  datatype McpError = McpError(code: int, message: string)

  /** A value, or the McpError raised instead. */
  datatype Result<+T> = Ok(value: T) | Err(error: McpError) {
    predicate IsFailure() { Err? }

    function PropagateFailure<U>(): Result<U>
      requires Err?
    {
      Err(error)
    }

    function Extract(): T
      requires Ok?
    {
      value
    }
  }

  predicate IsDigit(c: char) {
    '0' <= c <= '9'
  }

  predicate AllDigits(s: string) {
    forall i :: 0 <= i < |s| ==> IsDigit(s[i])
  }

  function DigitChar(d: nat): (c: char)
    requires d < 10
    ensures IsDigit(c)
  {
    (48 + d) as char
  }

  function DigitValue(c: char): (d: nat)
    requires IsDigit(c)
    ensures d < 10
  {
    c as int - 48
  }

  /** Python's `str(n)` for a non-negative integer: decimal, no leading zeros. */
  function Decimal(n: nat): (s: string)
    ensures 1 <= |s| && AllDigits(s)
    ensures 1 < |s| ==> s[0] != '0'
  {
    if n < 10 then [DigitChar(n)] else Decimal(n / 10) + [DigitChar(n % 10)]
  }

  /** Reads a run of decimal digits back as a number. */
  function ParseDecimal(s: string): nat
    requires AllDigits(s)
  {
    if s == [] then 0 else 10 * ParseDecimal(s[..|s| - 1]) + DigitValue(s[|s| - 1])
  }

  /** Reading `str(n)` back gives `n`: the decimal rendering loses nothing. */
  lemma {:induction false} DecimalRoundTrip(n: nat)
    ensures ParseDecimal(Decimal(n)) == n
  {
    if n >= 10 {
      var s := Decimal(n / 10);
      assert (s + [DigitChar(n % 10)])[..|s|] == s;
      DecimalRoundTrip(n / 10);
    }
  }

  /** Different numbers render differently. */
  lemma DecimalInjective(m: nat, n: nat)
    requires Decimal(m) == Decimal(n)
    ensures m == n
  {
    DecimalRoundTrip(m);
    DecimalRoundTrip(n);
  }

  const STATUS_CODE_SUFFIX := " - status code "

  /** The INTERNAL_ERROR raised for a non-200 response: `what` names the
      index and the operation, and the status code can be read back from the
      end of the message. */
  function StatusError(what: string, status: nat): (e: McpError)
    ensures e.code == INTERNAL_ERROR
    ensures |what| + |STATUS_CODE_SUFFIX| < |e.message|
    ensures e.message[..|what|] == what
    ensures AllDigits(e.message[|what| + |STATUS_CODE_SUFFIX|..])
    ensures ParseDecimal(e.message[|what| + |STATUS_CODE_SUFFIX|..]) == status
  {
    var m := what + STATUS_CODE_SUFFIX + Decimal(status);
    assert m[|what| + |STATUS_CODE_SUFFIX|..] == Decimal(status);
    DecimalRoundTrip(status);
    McpError(INTERNAL_ERROR, m)
  }

  /** Two status errors of one operation are equal only for equal status codes. */
  lemma StatusErrorInjective(what: string, s1: nat, s2: nat)
    requires StatusError(what, s1) == StatusError(what, s2)
    ensures s1 == s2
  {
  }

  const PARSE_PREFIX := "Failed to parse "

  /** The INTERNAL_ERROR raised when decoding the body or reading a required
      key raises; `what` says which result could not be parsed. */
  function ParseError(what: string): (e: McpError)
    ensures e.code == INTERNAL_ERROR
    ensures |PARSE_PREFIX| <= |e.message| && e.message[..|PARSE_PREFIX|] == PARSE_PREFIX
  {
    McpError(INTERNAL_ERROR, PARSE_PREFIX + what)
  }

  /** A parse failure can never be mistaken for a status failure whose
      operation text starts with "Failed to " followed by anything but "p". */
  lemma {:induction false} ParseErrorIsNotStatusError(what: string, status: nat, parsed: string)
    requires |what| > 10 && what[..10] == "Failed to " && what[10] != 'p'
    ensures StatusError(what, status) != ParseError(parsed)
  {
    var e := StatusError(what, status);
    assert e.message[10] == what[10];
    assert ParseError(parsed).message[10] == 'p';
  }
}
