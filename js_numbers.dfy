/** The JavaScript number operations the consoles rely on: `parseInt`, the
    `Number` coercion of a decimal string, and `Math.round` of a ratio of
    integers. Only integral values occur, so a number is an `int` or `NaN`. */
module JsNumbers {
  import opened Wrappers
  import Decimal

  datatype JsNumber = Num(n: int) | NaN
  {
    /** `x === k` for an integer constant `k`: false for NaN. */
    predicate Is(k: int) { Num? && n == k }
    /** `x >= k`, `x > k`: comparisons with NaN are false. */
    predicate AtLeast(k: int) { Num? && n >= k }
    predicate Above(k: int) { Num? && n > k }
  }

  /** The white-space and line-terminator characters `parseInt` skips: tab,
      line feed, vertical tab, form feed, carriage return, space, U+00A0,
      U+FEFF, the other space separators of Unicode (U+1680, U+2000 to
      U+200A, U+202F, U+205F, U+3000) and U+2028, U+2029. */
  predicate IsWhiteSpace(c: char)
  {
    c == ' ' || c == '\t' || c == '\n' || c == '\r' || c == '\U{000B}' || c == '\U{000C}'
    || c == '\U{00A0}' || c == '\U{FEFF}' || c == '\U{1680}' || '\U{2000}' <= c <= '\U{200A}'
    || c == '\U{202F}' || c == '\U{205F}' || c == '\U{3000}' || c == '\U{2028}' || c == '\U{2029}'
  }

  /** The string with its leading white space removed: what is dropped is all
      white space, and what remains does not start with any. */
  function TrimStart(s: string): (t: string)
    ensures |t| <= |s| && t == s[|s| - |t|..]
    ensures forall k :: 0 <= k < |s| - |t| ==> IsWhiteSpace(s[k])
    ensures |t| > 0 ==> !IsWhiteSpace(t[0])
    decreases |s|
  {
    if |s| > 0 && IsWhiteSpace(s[0]) then
      var t := TrimStart(s[1..]);
      assert forall k :: 1 <= k < |s| - |t| ==> s[k] == s[1..][k - 1];
      t
    else s
  }

  predicate IsHexDigit(c: char)
  {
    Decimal.IsDigit(c) || 'a' <= c <= 'f' || 'A' <= c <= 'F'
  }

  function HexDigitValue(c: char): nat
    requires IsHexDigit(c)
  {
    if Decimal.IsDigit(c) then Decimal.DigitValue(c)
    else if 'a' <= c <= 'f' then c as int - 'a' as int + 10
    else c as int - 'A' as int + 10
  }

  predicate IsRadixDigit(c: char, hex: bool)
  {
    if hex then IsHexDigit(c) else Decimal.IsDigit(c)
  }

  /** The longest prefix of `s` made of digits of the radix. */
  function DigitPrefix(s: string, hex: bool): (z: string)
    ensures |z| <= |s| && z == s[..|z|]
    ensures forall i :: 0 <= i < |z| ==> IsRadixDigit(z[i], hex)
    ensures |z| < |s| ==> !IsRadixDigit(s[|z|], hex)
    decreases |s|
  {
    if |s| > 0 && IsRadixDigit(s[0], hex) then [s[0]] + DigitPrefix(s[1..], hex) else []
  }

  function RadixValue(z: string, hex: bool): nat
    requires forall i :: 0 <= i < |z| ==> IsRadixDigit(z[i], hex)
    decreases |z|
  {
    if z == [] then 0
    else
      var last := z[|z| - 1];
      assert IsRadixDigit(last, hex);
      var d := if hex then HexDigitValue(last) else Decimal.DigitValue(last);
      RadixValue(z[..|z| - 1], hex) * (if hex then 16 else 10) + d
  }

  /** `parseInt(s)` with no radix argument: skip leading white space, take an
      optional sign, switch to base 16 after `0x`/`0X`, then read the longest run
      of digits; NaN when that run is empty. */
  function ParseInt(s: string): JsNumber
  {
    var t := TrimStart(s);
    var negative := |t| > 0 && t[0] == '-';
    var u := if |t| > 0 && (t[0] == '-' || t[0] == '+') then t[1..] else t;
    var hex := |u| >= 2 && u[0] == '0' && (u[1] == 'x' || u[1] == 'X');
    var body := if hex then u[2..] else u;
    var z := DigitPrefix(body, hex);
    if z == [] then NaN
    else Num(if negative then -(RadixValue(z, hex) as int) else RadixValue(z, hex) as int)
  }

  /** `parseInt(a[i])` where the element may be `undefined`: `parseInt(undefined)`
      reads the text "undefined", which has no leading digit. */
  function ParseIntOf(s: Option<string>): (r: JsNumber)
    ensures s.None? ==> r == NaN
  {
    match s
    case None => NaN
    case Some(text) => ParseInt(text)
  }

  lemma {:induction false} DecimalRadixValue(z: string)
    requires Decimal.AllDigits(z)
    ensures RadixValue(z, false) == Decimal.DigitsValue(z)
    decreases |z|
  {
    if z != [] {
      DecimalRadixValue(z[..|z| - 1]);
    }
  }

  lemma {:induction false} DigitPrefixOfDigits(z: string)
    requires Decimal.AllDigits(z)
    ensures DigitPrefix(z, false) == z
    decreases |z|
  {
    if z != [] {
      DigitPrefixOfDigits(z[1..]);
    }
  }

  /** `parseInt` reads a digit string that does not start with `0x` as its value. */
  lemma ParseIntOfDigits(s: string)
    requires |s| > 0 && Decimal.AllDigits(s)
    requires !(|s| >= 2 && s[0] == '0' && (s[1] == 'x' || s[1] == 'X'))
    ensures ParseInt(s) == Num(Decimal.DigitsValue(s))
  {
    DigitIsNotBlank(s[0]);
    assert TrimStart(s) == s;
    DigitPrefixOfDigits(s);
    DecimalRadixValue(s);
    assert ParseInt(s) == Num(RadixValue(DigitPrefix(s, false), false) as int);
  }

  lemma DigitIsNotBlank(c: char)
    requires Decimal.IsDigit(c)
    ensures !IsWhiteSpace(c) && c != '-' && c != '+'
  {
  }

  /** `parseInt` reads back the decimal spelling of every natural number. */
  lemma ParseIntOfDecimal(n: nat)
    ensures ParseInt(Decimal.NatToString(n)) == Num(n)
  {
    var s := Decimal.NatToString(n);
    ParseIntOfDigits(s);
    Decimal.NatToStringValue(n);
  }

  /** `Math.round(n / d)` for integers with `d > 0`: `floor(n / d + 1/2)`, the
      nearest integer with halves rounded up. */
  function RoundDiv(n: int, d: int): (r: int)
    requires d > 0
    ensures -d < 2 * (r * d - n) <= d
  {
    var q := (2 * n + d) / (2 * d);
    assert 2 * n + d == (2 * d) * q + (2 * n + d) % (2 * d);
    q
  }

  /** The property above determines the result: no other integer is that close. */
  lemma RoundDivUnique(n: int, d: int, k: int)
    requires d > 0
    requires -d < 2 * (k * d - n) <= d
    ensures k == RoundDiv(n, d)
  {
    var r := RoundDiv(n, d);
    var m := k - r;
    assert 2 * (k * d - n) - 2 * (r * d - n) == 2 * (m * d) by {
      assert k * d - r * d == m * d;
    }
    if m >= 1 {
      MulAtLeast(m, d);
    } else if m <= -1 {
      MulAtLeast(-m, d);
    }
  }

  lemma MulAtLeast(m: int, d: int)
    requires m >= 1 && d > 0
    ensures m * d >= d
  {
    assert m * d == (m - 1) * d + d;
  }

  /** The `Number(s)` coercion of the decimal text a Go backend writes for an
      integer: such text is read exactly, and the empty string is 0. Every other
      spelling (fractions, exponents, surrounding blanks) is taken as NaN. */
  function NumberOfDecimal(s: string): (r: JsNumber)
    ensures Decimal.ParseDecimal(s).Some? ==> r == Num(Decimal.ParseDecimal(s).value)
  {
    if s == "" then Num(0)
    else match Decimal.ParseDecimal(s)
      case Some(v) => Num(v)
      case None => NaN
  }
}
