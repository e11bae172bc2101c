/** Optional values: JavaScript's `null`/`undefined` beside a present value. */
module Options {
  datatype Option<+T> = None | Some(value: T)
}

/**
 * The slice of JavaScript number semantics the housing-search core relies on:
 * numeric object slots that may hold `null` or `NaN`, relational comparison
 * with its coercions, truthiness, `String(number)`, and the two string
 * readers `Number.parseInt(s, 10)` and `parseFloat(s)`.
 *
 * Numbers are modelled as integers (and, for `parseFloat`, as exact decimals
 * of type `real`); floating-point rounding is not part of this model.
 */
module JsNumbers {
  import opened Options

  /** A numeric slot of a filter object: `null`, an integer-valued number, or `NaN`. */
  datatype JsNumber = Null | Int(value: int) | NaN

  /** The number a relational operator compares: `null` reads as 0; `NaN` has none. */
  function Coerced(x: JsNumber): int
    requires !x.NaN?
  {
    if x.Null? then 0 else x.value
  }

  /** `a <= b`: false whenever either side is `NaN`. */
  predicate Le(a: JsNumber, b: JsNumber) {
    !a.NaN? && !b.NaN? && Coerced(a) <= Coerced(b)
  }

  /** `a > b`: false whenever either side is `NaN`. */
  predicate Gt(a: JsNumber, b: JsNumber) {
    !a.NaN? && !b.NaN? && Coerced(a) > Coerced(b)
  }

  /** `a >= b`. */
  predicate Ge(a: JsNumber, b: JsNumber) {
    Le(b, a)
  }

  /** Truthiness of a number slot: `null`, `0` and `NaN` are falsy. */
  predicate Truthy(x: JsNumber) {
    x.Int? && x.value != 0
  }

  /** `x || null` for a nullable integer read from a listing: 0 becomes null. */
  function NullIfFalsy(x: Option<int>): (r: Option<int>)
    ensures r.None? <==> (x.None? || x.value == 0)
    ensures r.Some? ==> r == x
  {
    if x.Some? && x.value != 0 then x else None
  }

  /** A nullable integer read from a listing as a number slot. */
  function FromNullable(x: Option<int>): JsNumber {
    if x.None? then Null else Int(x.value)
  }

  lemma LeNeverHoldsForNaN(a: JsNumber)
    ensures !Le(a, NaN) && !Le(NaN, a) && !Gt(a, NaN) && !Gt(NaN, a)
  {
  }

  /** Without `NaN`, exactly one of `a <= b` and `a > b` holds; with it, neither. */
  lemma LeOrGt(a: JsNumber, b: JsNumber)
    ensures Le(a, b) || Gt(a, b) <==> !a.NaN? && !b.NaN?
    ensures !(Le(a, b) && Gt(a, b))
  {
  }

  // ---------------------------------------------------------------------------
  // Characters and digit strings
  // ---------------------------------------------------------------------------

  /** The characters `parseInt`/`parseFloat` skip before the number:
      ECMAScript WhiteSpace and LineTerminator. */
  predicate IsJsWhitespace(c: char) {
    || c == '\U{9}' || c == '\U{B}' || c == '\U{C}' || c == ' '
    || c == '\U{A0}' || c == '\U{FEFF}' || c == '\U{1680}'
    || ('\U{2000}' <= c <= '\U{200A}') || c == '\U{202F}' || c == '\U{205F}' || c == '\U{3000}'
    || c == '\U{A}' || c == '\U{D}' || c == '\U{2028}' || c == '\U{2029}'
  }

  predicate IsDigit(c: char) {
    '0' <= c <= '9'
  }

  function DigitValue(c: char): nat
    requires IsDigit(c)
  {
    (c as int) - ('0' as int)
  }

  function DigitChar(d: nat): (c: char)
    requires d < 10
    ensures IsDigit(c) && DigitValue(c) == d
  {
    (('0' as int) + d) as char
  }

  /** The string with its leading whitespace removed. */
  function TrimStart(s: string): (r: string)
    ensures |r| <= |s| && r == s[|s| - |r|..]
    ensures |r| > 0 ==> !IsJsWhitespace(r[0])
    ensures forall i :: 0 <= i < |s| - |r| ==> IsJsWhitespace(s[i])
  {
    if |s| > 0 && IsJsWhitespace(s[0]) then TrimStart(s[1..]) else s
  }

  /** The length of the run of decimal digits at the start of `s`. */
  function DigitRun(s: string): (k: nat)
    ensures k <= |s|
    ensures forall i :: 0 <= i < k ==> IsDigit(s[i])
    ensures k < |s| ==> !IsDigit(s[k])
  {
    if |s| > 0 && IsDigit(s[0]) then 1 + DigitRun(s[1..]) else 0
  }

  predicate AllDigits(s: string) {
    forall i :: 0 <= i < |s| ==> IsDigit(s[i])
  }

  /** The value of a string of decimal digits, most significant first. */
  function DigitsValue(s: string): nat
    requires AllDigits(s)
  {
    if |s| == 0 then 0 else 10 * DigitsValue(s[..|s| - 1]) + DigitValue(s[|s| - 1])
  }

  /** The value of the digits after a decimal point: "25" is 0.25. */
  function FractionValue(s: string): (r: real)
    requires AllDigits(s)
    ensures 0.0 <= r <= 1.0
  {
    if |s| == 0 then 0.0 else (DigitValue(s[0]) as real + FractionValue(s[1..])) / 10.0
  }

  /** The value of the first `j` characters of `s` read as digits after a decimal point. */
  function FractionDigits(s: string, j: nat): real
    requires j == DigitRun(s)
  {
    FractionValue(s[..j])
  }

  /** The shortest decimal representation of a natural number. */
  function DecimalString(n: nat): (s: string)
    ensures |s| > 0 && AllDigits(s)
    ensures n >= 10 <==> |s| > 1
  {
    if n < 10 then [DigitChar(n)] else DecimalString(n / 10) + [DigitChar(n % 10)]
  }

  /** `String(i)` for an integer. */
  function IntToString(i: int): string {
    if i < 0 then "-" + DecimalString(-i) else DecimalString(i)
  }

  /** `String(x)`, as `localStorage.setItem` stores a number slot. */
  function NumberToString(x: JsNumber): string {
    match x
    case Null => "null"
    case Int(i) => IntToString(i)
    case NaN => "NaN"
  }

  // ---------------------------------------------------------------------------
  // Number.parseInt(s, 10) and parseFloat(s)
  // ---------------------------------------------------------------------------

  /** The sign of a number literal: whether it is negative, and the rest of the string. */
  function SplitSign(t: string): (string, bool) {
    if |t| > 0 && (t[0] == '-' || t[0] == '+') then (t[1..], t[0] == '-') else (t, false)
  }

  /**
   * `Number.parseInt(s, 10)`: skip leading whitespace, read an optional sign
   * and the longest run of decimal digits; `NaN` when there is no digit.
   */
  function ParseInt(s: string): (r: JsNumber)
    ensures !r.Null?
    ensures r.NaN? <==> DigitRun(SplitSign(TrimStart(s)).0) == 0
  {
    var (u, negative) := SplitSign(TrimStart(s));
    var k := DigitRun(u);
    if k == 0 then NaN
    else
      var magnitude: int := DigitsValue(u[..k]);
      Int(if negative then -magnitude else magnitude)
  }

  /**
   * `parseFloat(s)` on decimal literals: skip leading whitespace, read an
   * optional sign, the longest prefix `digits[.digits]` (or `.digits`) and
   * return its exact value; `None` stands for `NaN` (no digit at all).
   */
  function ParseFloat(s: string): (r: Option<real>)
    ensures r.None? <==>
      var (u, _) := SplitSign(TrimStart(s));
      var k := DigitRun(u);
      k == 0 && (k == |u| || u[k] != '.' || DigitRun(u[k + 1..]) == 0)
  {
    var (u, negative) := SplitSign(TrimStart(s));
    var k := DigitRun(u);
    var whole := DigitsValue(u[..k]) as real;
    var j := if k < |u| && u[k] == '.' then DigitRun(u[k + 1..]) else 0;
    if k == 0 && j == 0 then None
    else
      var fraction := if j == 0 then 0.0 else FractionDigits(u[k + 1..], j);
      var magnitude := whole + fraction;
      Some(if negative then -magnitude else magnitude)
  }

  // ---------------------------------------------------------------------------
  // Round trips
  // ---------------------------------------------------------------------------

  lemma {:induction false} DigitRunOfAllDigits(s: string)
    requires AllDigits(s)
    ensures DigitRun(s) == |s|
  {
    if |s| > 0 {
      DigitRunOfAllDigits(s[1..]);
    }
  }

  lemma {:induction false} DecimalStringValue(n: nat)
    ensures DigitsValue(DecimalString(n)) == n
  {
    if n >= 10 {
      var s := DecimalString(n);
      assert s[..|s| - 1] == DecimalString(n / 10);
      DecimalStringValue(n / 10);
    }
  }

  /** A string that starts with a digit has no leading whitespace and no sign. */
  lemma StartsWithDigit(d: string)
    requires |d| > 0 && IsDigit(d[0])
    ensures TrimStart(d) == d && SplitSign(d) == (d, false)
  {
    assert !IsJsWhitespace(d[0]);
  }

  /** A digit string reads back as its own value with nothing skipped before it. */
  lemma ReadDigits(d: string)
    requires |d| > 0 && AllDigits(d)
    ensures TrimStart(d) == d && SplitSign(d) == (d, false)
    ensures DigitRun(d) == |d| && d[..DigitRun(d)] == d
  {
    StartsWithDigit(d);
    DigitRunOfAllDigits(d);
  }

  /** Every integer written with `String` reads back with `parseInt`. */
  lemma ParseIntOfIntToString(i: int)
    ensures ParseInt(IntToString(i)) == Int(i)
  {
    var n: nat := if i < 0 then -i else i;
    var d := DecimalString(n);
    DecimalStringValue(n);
    ReadDigits(d);
    if i < 0 {
      var s := "-" + d;
      assert s[0] == '-' && s[1..] == d;
      assert !IsJsWhitespace(s[0]);
      assert TrimStart(s) == s;
      assert SplitSign(s) == (d, true);
    }
  }

  /** Every natural number written with `String` reads back with `parseFloat`. */
  lemma ParseFloatOfDecimalString(n: nat)
    ensures ParseFloat(DecimalString(n)) == Some(n as real)
  {
    var d := DecimalString(n);
    DecimalStringValue(n);
    ReadDigits(d);
  }

  /** Text that starts with anything but whitespace, a sign or a digit reads as `NaN`. */
  lemma ParseIntOfLetter(s: string)
    requires |s| > 0 && !IsJsWhitespace(s[0]) && !IsDigit(s[0]) && s[0] != '-' && s[0] != '+'
    ensures ParseInt(s) == NaN
  {
    assert TrimStart(s) == s;
    assert SplitSign(s) == (s, false);
  }

  /** `NaN` is stored as "NaN", which `parseInt` reads back as `NaN`. */
  lemma ParseIntOfNaN()
    ensures ParseInt(NumberToString(NaN)) == NaN
  {
    var text := NumberToString(NaN);
    assert text[0] == 'N';
    ParseIntOfLetter(text);
  }
}
