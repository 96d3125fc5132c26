/**
 * The input guard of the `/checkBusy` handler: a request is refused, before any
 * lookup, when `cust_id` is falsy, `number` is falsy, or `isNaN(number)` holds.
 * Truthiness and `isNaN` follow ECMAScript: `isNaN` converts its argument with
 * ToNumber, which for a string applies the StringNumericLiteral grammar of
 * section 7.1.4.1.1 of ECMA-262.
 */
module CheckBusy {

  /** A field of the JSON request body; a missing field is `Undefined`. A JSON
      number is held as an exact real: parsing never yields NaN, and the rounding
      of a parsed number to a double (underflow to zero, overflow to Infinity) is
      not modelled. */
  datatype JsonValue = Undefined | Null | Bool(b: bool) | Num(n: real) | Str(s: string) | Obj

  /** ECMAScript ToBoolean. */
  predicate Truthy(v: JsonValue)
  {
    match v
    case Undefined | Null => false
    case Bool(b) => b
    case Num(n) => n != 0.0
    case Str(s) => s != ""
    case Obj => true
  }

  /** ECMAScript `isNaN`: ToNumber gives NaN for `undefined`, for a plain object
      (whose string form is "[object Object]") and for a string outside the
      StringNumericLiteral grammar; `null`, booleans and JSON numbers convert. */
  predicate IsNaN(v: JsonValue)
  {
    match v
    case Undefined | Obj => true
    case Null | Bool(_) | Num(_) => false
    case Str(s) => !IsStringNumericLiteral(s)
  }

  /** The guard: true when the handler refuses the request before its query. */
  predicate RejectsBusyInput(custId: JsonValue, number: JsonValue)
  {
    !Truthy(custId) || !Truthy(number) || IsNaN(number)
  }

  /** StrWhiteSpaceChar: the WhiteSpace and LineTerminator code points of ECMAScript
      (tab, vertical tab, form feed, space, no-break space, byte-order mark, the
      space separators of Unicode category Zs, line feed, carriage return, and the
      line and paragraph separators). */
  predicate IsStrWhiteSpace(ch: char)
  {
    ch == '\t' || ch == '\U{B}' || ch == '\U{C}' || ch == ' ' || ch == '\U{A0}' || ch == '\U{FEFF}' ||
    ch == '\U{1680}' || ('\U{2000}' <= ch <= '\U{200A}') || ch == '\U{202F}' || ch == '\U{205F}' ||
    ch == '\U{3000}' || ch == '\n' || ch == '\r' || ch == '\U{2028}' || ch == '\U{2029}'
  }

  predicate IsDecimalDigit(ch: char) { '0' <= ch <= '9' }

  predicate IsHexDigit(ch: char) { IsDecimalDigit(ch) || 'a' <= ch <= 'f' || 'A' <= ch <= 'F' }

  /** The string without its leading white space. */
  function TrimStart(s: string): (r: string)
    ensures |r| <= |s| && r == s[|s| - |r|..]
    ensures forall i :: 0 <= i < |s| - |r| ==> IsStrWhiteSpace(s[i])
    ensures r != [] ==> !IsStrWhiteSpace(r[0])
  {
    if s != [] && IsStrWhiteSpace(s[0]) then TrimStart(s[1..]) else s
  }

  /** The string without its trailing white space. */
  function TrimEnd(s: string): (r: string)
    ensures |r| <= |s| && r == s[..|r|]
    ensures forall i :: |r| <= i < |s| ==> IsStrWhiteSpace(s[i])
    ensures r != [] ==> !IsStrWhiteSpace(r[|r| - 1])
  {
    if s != [] && IsStrWhiteSpace(s[|s| - 1]) then TrimEnd(s[..|s| - 1]) else s
  }

  /** The length of the run of decimal digits the string starts with. */
  function LeadingDigits(s: string): (n: nat)
    ensures n <= |s|
    ensures forall i :: 0 <= i < n ==> IsDecimalDigit(s[i])
    ensures n < |s| ==> !IsDecimalDigit(s[n])
  {
    if s != [] && IsDecimalDigit(s[0]) then 1 + LeadingDigits(s[1..]) else 0
  }

  /** DecimalDigits: one or more decimal digits. */
  predicate IsDecimalDigits(s: string)
  {
    s != [] && forall i :: 0 <= i < |s| ==> IsDecimalDigit(s[i])
  }

  predicate IsSign(ch: char) { ch == '+' || ch == '-' }

  /** SignedInteger: decimal digits with an optional sign. */
  predicate IsSignedInteger(s: string)
  {
    IsDecimalDigits(s) || (s != [] && IsSign(s[0]) && IsDecimalDigits(s[1..]))
  }

  /** ExponentPart, or nothing. */
  predicate IsOptionalExponent(s: string)
  {
    s == [] || ((s[0] == 'e' || s[0] == 'E') && IsSignedInteger(s[1..]))
  }

  /** StrUnsignedDecimalLiteral: `Infinity`, or digits with an optional fraction, or a
      fraction alone, each with an optional exponent. */
  predicate IsUnsignedDecimal(s: string)
  {
    s == "Infinity" ||
    var m := LeadingDigits(s);
    var rest := s[m..];
    if rest != [] && rest[0] == '.' then
      var f := LeadingDigits(rest[1..]);
      (m > 0 || f > 0) && IsOptionalExponent(rest[1 + f..])
    else
      m > 0 && IsOptionalExponent(rest)
  }

  /** StrDecimalLiteral: an unsigned decimal literal with an optional sign. */
  predicate IsStrDecimal(s: string)
  {
    IsUnsignedDecimal(s) || (s != [] && IsSign(s[0]) && IsUnsignedDecimal(s[1..]))
  }

  /** NonDecimalIntegerLiteral without separators: `0b`, `0o` or `0x` (either case)
      followed by binary, octal or hexadecimal digits. */
  predicate IsNonDecimalInteger(s: string)
  {
    |s| > 2 && s[0] == '0' &&
    var digits := s[2..];
    if s[1] == 'b' || s[1] == 'B' then forall i :: 0 <= i < |digits| ==> digits[i] == '0' || digits[i] == '1'
    else if s[1] == 'o' || s[1] == 'O' then forall i :: 0 <= i < |digits| ==> '0' <= digits[i] <= '7'
    else if s[1] == 'x' || s[1] == 'X' then forall i :: 0 <= i < |digits| ==> IsHexDigit(digits[i])
    else false
  }

  /** StringNumericLiteral: white space alone, or a signed decimal literal or a
      non-decimal integer literal with white space around it. */
  predicate IsStringNumericLiteral(s: string)
  {
    var t := TrimEnd(TrimStart(s));
    t == [] || IsStrDecimal(t) || IsNonDecimalInteger(t)
  }

  /** Whatever the other field holds, a missing or empty `cust_id` or `number` is refused. */
  lemma MissingFieldRejected(custId: JsonValue, number: JsonValue)
    requires custId in {Undefined, Null, Str("")} || number in {Undefined, Null, Str("")}
    ensures RejectsBusyInput(custId, number)
  {
  }

  /** A request that passes carries a truthy `cust_id` and a `number` that is a
      nonzero JSON number, `true`, or a nonempty numeric string. */
  lemma AcceptedNumberIsNumeric(custId: JsonValue, number: JsonValue)
    requires !RejectsBusyInput(custId, number)
    ensures Truthy(custId)
    ensures (number.Num? && number.n != 0.0) || number == Bool(true) ||
            (number.Str? && number.s != "" && IsStringNumericLiteral(number.s))
  {
  }

  /** A phone number written as decimal digits passes the guard with any truthy `cust_id`. */
  lemma DigitStringAccepted(custId: JsonValue, digits: string)
    requires Truthy(custId) && IsDecimalDigits(digits)
    ensures !RejectsBusyInput(custId, Str(digits))
  {
    DigitsHaveNoWhiteSpace(digits);
    DigitsAreUnsignedDecimal(digits);
  }

  /** Trimming leaves a string of digits as it is. */
  lemma DigitsHaveNoWhiteSpace(digits: string)
    requires IsDecimalDigits(digits)
    ensures TrimEnd(TrimStart(digits)) == digits
  {
    assert !IsStrWhiteSpace(digits[0]);
    assert TrimStart(digits) == digits;
    assert !IsStrWhiteSpace(digits[|digits| - 1]);
  }

  /** A string of digits is an unsigned decimal literal. */
  lemma DigitsAreUnsignedDecimal(digits: string)
    requires IsDecimalDigits(digits)
    ensures IsUnsignedDecimal(digits)
  {
    assert LeadingDigits(digits) == |digits|;
    assert digits[|digits|..] == [];
  }

  /** A string of white space alone converts to zero, so it passes the guard although
      it holds no number. */
  lemma WhiteSpaceAccepted(custId: JsonValue, blank: string)
    requires Truthy(custId) && blank != [] && forall i :: 0 <= i < |blank| ==> IsStrWhiteSpace(blank[i])
    ensures !RejectsBusyInput(custId, Str(blank))
  {
    assert TrimStart(blank) == [];
  }

  /** A string whose first character is not white space and cannot begin a number
      (a digit, a sign, a point, or the `I` of `Infinity`) is refused. */
  lemma NonNumericStartRejected(custId: JsonValue, s: string)
    requires s != [] && !IsStrWhiteSpace(s[0])
    requires !IsDecimalDigit(s[0]) && s[0] != '+' && s[0] != '-' && s[0] != '.' && s[0] != 'I'
    ensures RejectsBusyInput(custId, Str(s))
  {
    assert TrimStart(s) == s;
    var t := TrimEnd(s);
    assert t != [] && t[0] == s[0];
    assert LeadingDigits(t) == 0;
  }
}
