/** The two pieces of JavaScript string semantics the chat depends on:
    `String.prototype.trim` (to ignore blank input) and the `Number(s)`
    conversion (to read a mood rating). Both follow ECMA-262: the WhiteSpace
    and LineTerminator productions, and the StringToNumber grammar with its
    StrUnsignedDecimalLiteral and NonDecimalIntegerLiteral forms; values are
    exact reals rather than doubles, so the rounding to the nearest double is
    not modelled. */
module JsText {
  import opened Base

  /** WhiteSpace or LineTerminator code points. */
  predicate IsSpace(c: char)
  {
    || c == '\t' || c == '\n' || c == '\r' || c == ' '
    || c == '\U{000B}' || c == '\U{000C}' || c == '\U{00A0}' || c == '\U{1680}'
    || ('\U{2000}' <= c <= '\U{200A}')
    || c == '\U{2028}' || c == '\U{2029}' || c == '\U{202F}' || c == '\U{205F}'
    || c == '\U{3000}' || c == '\U{FEFF}'
  }

  /** Number of leading whitespace characters. */
  function LeadingSpaces(s: string): (k: nat)
    ensures k <= |s|
    ensures forall i :: 0 <= i < k ==> IsSpace(s[i])
    ensures k < |s| ==> !IsSpace(s[k])
  {
    if s == [] || !IsSpace(s[0]) then 0
    else
      var k := LeadingSpaces(s[1..]);
      assert forall i :: 1 <= i < |s| ==> s[i] == s[1..][i - 1];
      1 + k
  }

  /** Number of trailing whitespace characters. */
  function TrailingSpaces(s: string): (k: nat)
    ensures k <= |s|
    ensures forall i :: |s| - k <= i < |s| ==> IsSpace(s[i])
    ensures k < |s| ==> !IsSpace(s[|s| - 1 - k])
  {
    if s == [] || !IsSpace(s[|s| - 1]) then 0
    else
      var k := TrailingSpaces(s[..|s| - 1]);
      assert forall i :: 0 <= i < |s| - 1 ==> s[i] == s[..|s| - 1][i];
      1 + k
  }

  /** `s.trim()`: the characters between the leading and trailing whitespace. */
  function Trim(s: string): (t: string)
    ensures |t| <= |s|
    ensures t == "" || (!IsSpace(t[0]) && !IsSpace(t[|t| - 1]))
    ensures LeadingSpaces(s) + |t| <= |s|
    ensures t == s[LeadingSpaces(s)..LeadingSpaces(s) + |t|]
    ensures forall i :: LeadingSpaces(s) + |t| <= i < |s| ==> IsSpace(s[i])
  {
    var a := LeadingSpaces(s);
    if a == |s| then ""
    else
      var b := TrailingSpaces(s);
      assert b < |s| - a;
      s[a..|s| - b]
  }

  /** `!s.trim()`: the input is empty or whitespace only. */
  predicate IsBlank(s: string)
  {
    Trim(s) == ""
  }

  /** An input is blank exactly when every one of its characters is whitespace. */
  lemma BlankIffAllSpace(s: string)
    ensures IsBlank(s) <==> forall i :: 0 <= i < |s| ==> IsSpace(s[i])
  {
    var a := LeadingSpaces(s);
    if a < |s| {
      assert !IsSpace(s[a]);
    }
  }

  /* ---------------------------------------------------------------------- */
  /* Number(s)                                                               */

  /** The JavaScript numbers a string can convert to. */
  datatype Number = NaN | Infinity(negative: bool) | Finite(value: real)

  function DigitValue(c: char): (d: nat)
  {
    if '0' <= c <= '9' then c as int - '0' as int
    else if 'a' <= c <= 'z' then c as int - 'a' as int + 10
    else if 'A' <= c <= 'Z' then c as int - 'A' as int + 10
    else 99
  }

  predicate IsDigit(c: char, radix: nat)
  {
    DigitValue(c) < radix
  }

  predicate AllDigits(s: string, radix: nat)
  {
    forall i :: 0 <= i < |s| ==> IsDigit(s[i], radix)
  }

  /** Value of a digit string in the given radix (most significant first). */
  function DigitsValue(s: string, radix: nat): nat
  {
    if s == [] then 0
    else DigitsValue(s[..|s| - 1], radix) * radix + DigitValue(s[|s| - 1])
  }

  function Pow10(n: nat): (p: nat)
    ensures p >= 1
  {
    if n == 0 then 1 else 10 * Pow10(n - 1)
  }

  /** Position of the first character satisfying `p`, or |s| when none does. */
  function IndexWhere(s: string, p: char -> bool): (k: nat)
    ensures k <= |s|
    ensures forall i :: 0 <= i < k ==> !p(s[i])
    ensures k < |s| ==> p(s[k])
  {
    if s == [] || p(s[0]) then 0
    else
      var k := IndexWhere(s[1..], p);
      assert forall i :: 1 <= i < |s| ==> s[i] == s[1..][i - 1];
      1 + k
  }

  /** Radix named by a `0x`, `0o` or `0b` prefix. */
  function RadixPrefix(t: string): (r: nat)
  {
    if |t| < 2 || t[0] != '0' then 0
    else if t[1] == 'x' || t[1] == 'X' then 16
    else if t[1] == 'o' || t[1] == 'O' then 8
    else if t[1] == 'b' || t[1] == 'B' then 2
    else 0
  }

  /** `n * 10^e` for an integer exponent. */
  function Scale(n: nat, e: int): real
  {
    if e >= 0 then (n * Pow10(e)) as real else n as real / Pow10(-e) as real
  }

  /** ExponentPart digits after `e`/`E`: an optional sign and at least one digit. */
  function Exponent(x: string): Option<int>
  {
    if x != [] && (x[0] == '+' || x[0] == '-') then
      var d := x[1..];
      if d != [] && AllDigits(d, 10) then
        var v: int := DigitsValue(d, 10);
        Some(if x[0] == '-' then -v else v)
      else None
    else if x != [] && AllDigits(x, 10) then Some(DigitsValue(x, 10))
    else None
  }

  /** StrUnsignedDecimalLiteral: `Infinity`, or digits with an optional
      fraction and exponent, with at least one digit in the mantissa. */
  function UnsignedDecimal(u: string): (r: Number)
    ensures r.Infinity? <==> u == "Infinity"
    ensures r.Infinity? ==> !r.negative
  {
    if u == "Infinity" then Infinity(false)
    else
      var e := IndexWhere(u, c => c == 'e' || c == 'E');
      var mantissa := u[..e];
      var exponent := if e < |u| then Exponent(u[e + 1..]) else Some(0);
      var dot := IndexWhere(mantissa, c => c == '.');
      var whole := mantissa[..dot];
      var fraction := if dot < |mantissa| then mantissa[dot + 1..] else "";
      if exponent.Some? && AllDigits(whole, 10) && AllDigits(fraction, 10)
         && |whole| + |fraction| > 0
      then Finite(Scale(DigitsValue(whole + fraction, 10), exponent.value - |fraction|))
      else NaN
  }

  function Negate(n: Number): Number
  {
    match n
    case NaN => NaN
    case Infinity(neg) => Infinity(!neg)
    case Finite(v) => Finite(-v)
  }

  /** `Number(s)` for a string `s`. A blank string converts to 0; the only
      infinite results are those of the literal `Infinity` with an optional
      sign, since exact values never overflow; and the `0x`, `0o` and `0b`
      forms take no sign, so they never convert to a negative number. */
  function ToNumber(s: string): (r: Number)
    ensures Trim(s) == "" ==> r == Finite(0.0)
    ensures r.Infinity? <==> Trim(s) == "Infinity" || Trim(s) == "+Infinity" || Trim(s) == "-Infinity"
    ensures r.Infinity? ==> (r.negative <==> Trim(s) == "-Infinity")
    ensures RadixPrefix(Trim(s)) != 0 && r.Finite? ==> r.value >= 0.0
  {
    var t := Trim(s);
    assert t != "" ==> t == [t[0]] + t[1..];
    if t == "" then Finite(0.0)
    else if RadixPrefix(t) != 0 then
      var digits := t[2..];
      if digits != [] && AllDigits(digits, RadixPrefix(t))
      then Finite(DigitsValue(digits, RadixPrefix(t)) as real)
      else NaN
    else if t[0] == '-' then Negate(UnsignedDecimal(t[1..]))
    else if t[0] == '+' then UnsignedDecimal(t[1..])
    else UnsignedDecimal(t)
  }

  /** The relational operators `>=`, `<=` and `<` between a converted
      number and a finite constant: NaN compares false with everything. */
  predicate AtLeast(n: Number, x: real)
  {
    match n
    case NaN => false
    case Infinity(neg) => !neg
    case Finite(v) => v >= x
  }

  predicate AtMost(n: Number, x: real)
  {
    match n
    case NaN => false
    case Infinity(neg) => neg
    case Finite(v) => v <= x
  }

  predicate Below(n: Number, x: real)
  {
    match n
    case NaN => false
    case Infinity(neg) => neg
    case Finite(v) => v < x
  }

  /* ---------------------------------------------------------------------- */
  /* Decimal numerals, and the round trip through Number().                  */

  /** The decimal numeral of a natural number, without leading zeros. */
  function Decimal(n: nat): (s: string)
    ensures s != [] && AllDigits(s, 10)
  {
    var d := [('0' as int + n % 10) as char];
    if n < 10 then d else Decimal(n / 10) + d
  }

  lemma {:induction false} DecimalValue(n: nat)
    ensures DigitsValue(Decimal(n), 10) == n
  {
    var s := Decimal(n);
    if n >= 10 {
      DecimalValue(n / 10);
      assert s[..|s| - 1] == Decimal(n / 10);
    }
  }

  /** A string that neither starts nor ends with whitespace trims to itself. */
  lemma TrimUnpadded(s: string)
    requires s != [] && !IsSpace(s[0]) && !IsSpace(s[|s| - 1])
    ensures Trim(s) == s
  {
    assert LeadingSpaces(s) == 0;
    assert TrailingSpaces(s) == 0;
  }

  /** `Number()` ignores whitespace around the numeral: converting the
      trimmed string gives the same number. */
  lemma ToNumberOfTrimmed(s: string)
    ensures ToNumber(Trim(s)) == ToNumber(s)
  {
    var t := Trim(s);
    if t != "" {
      TrimUnpadded(t);
    }
  }

  /** A non-empty run of decimal digits converts to its value. */
  lemma UnsignedDigits(u: string)
    requires u != [] && AllDigits(u, 10)
    ensures UnsignedDecimal(u) == Finite(DigitsValue(u, 10) as real)
  {
    assert u[0] != 'I';
    var e := IndexWhere(u, c => c == 'e' || c == 'E');
    assert u[..e] == u;
    var dot := IndexWhere(u, c => c == '.');
    assert u[..dot] == u;
    assert u + "" == u;
  }

  /** A non-empty run of decimal digits, unpadded, converts to its value. */
  lemma DigitsRoundTrip(s: string)
    requires s != [] && AllDigits(s, 10)
    ensures ToNumber(s) == Finite(DigitsValue(s, 10) as real)
  {
    assert IsDigit(s[0], 10) && IsDigit(s[|s| - 1], 10);
    TrimUnpadded(s);
    assert RadixPrefix(s) == 0 by {
      if |s| >= 2 {
        assert IsDigit(s[1], 10);
      }
    }
    assert s[0] != '-' && s[0] != '+';
    UnsignedDigits(s);
  }

  /** Reading back the numeral of `n` with `Number()` gives `n`. */
  lemma DecimalRoundTrip(n: nat)
    ensures ToNumber(Decimal(n)) == Finite(n as real)
  {
    DecimalValue(n);
    DigitsRoundTrip(Decimal(n));
  }
}
