/**
 * The two conversions between JavaScript numbers and strings that the handler relies on:
 * formatting an integer in decimal (a number interpolated into a template literal) and
 * ECMAScript's StringToNumber (a string compared with `>= 1`). Numbers here are integers
 * and decimal literals held exactly; the rounding to a double is not modelled.
 */
module JsNumbers {
  import opened Wrappers

  /** The result of StringToNumber: NaN, a signed infinity, or mantissa * 10^exponent. */
  datatype Number = NaN | Infinity(negative: bool) | Finite(mantissa: int, exponent: int)

  function Pow10(k: nat): nat
  {
    if k == 0 then 1 else 10 * Pow10(k - 1)
  }

  /** The numeric comparison `x >= 1`; NaN compares false with everything. */
  predicate AtLeastOne(x: Number)
  {
    match x
    case NaN => false
    case Infinity(negative) => !negative
    case Finite(m, e) => if e >= 0 then m * Pow10(e) >= 1 else m >= Pow10(-e)
  }

  // ---------------------------------------------------------------- digits

  predicate IsDigitIn(c: char, radix: nat)
  {
    || ('0' <= c <= '9' && (c as int) - ('0' as int) < radix)
    || (radix == 16 && ('a' <= c <= 'f' || 'A' <= c <= 'F'))
  }

  function DigitOf(c: char): nat
  {
    if '0' <= c <= '9' then (c as int) - ('0' as int)
    else if 'a' <= c <= 'f' then (c as int) - ('a' as int) + 10
    else if 'A' <= c <= 'F' then (c as int) - ('A' as int) + 10
    else 0
  }

  predicate AllDigits(s: string, radix: nat)
  {
    forall k :: 0 <= k < |s| ==> IsDigitIn(s[k], radix)
  }

  /** The value of a digit string in the given radix, most significant digit first. */
  function ValueOf(s: string, radix: nat): nat
  {
    if s == [] then 0 else ValueOf(s[..|s| - 1], radix) * radix + DigitOf(s[|s| - 1])
  }

  /** The length of the longest prefix of `s` made of digits of the radix. */
  function PrefixLength(s: string, radix: nat): (n: nat)
    ensures n <= |s|
    ensures AllDigits(s[..n], radix)
    ensures n < |s| ==> !IsDigitIn(s[n], radix)
  {
    if s != [] && IsDigitIn(s[0], radix) then
      var n := 1 + PrefixLength(s[1..], radix);
      assert s[..n] == [s[0]] + s[1..][..n - 1];
      n
    else 0
  }

  // ---------------------------------------------------------------- formatting

  function DigitChar(d: nat): char
    requires d < 10
  {
    ('0' as int + d) as char
  }

  /** Decimal digits of `n`, without leading zeros (Number::toString for a natural number). */
  function NatToDecimal(n: nat): string
  {
    if n < 10 then [DigitChar(n)] else NatToDecimal(n / 10) + [DigitChar(n % 10)]
  }

  /** Number::toString for an integer: a minus sign before the digits of a negative number. */
  function IntToDecimal(n: int): (r: string)
    ensures n >= 0 ==> |r| >= 1 && AllDigits(r, 10) && ValueOf(r, 10) == n && (r[0] == '0' ==> r == "0")
    ensures n < 0 ==> |r| >= 2 && r[0] == '-' && AllDigits(r[1..], 10) && ValueOf(r[1..], 10) == -n && r[1] != '0'
  {
    if n < 0 then
      NatToDecimalDenotes(-n);
      assert ("-" + NatToDecimal(-n))[1..] == NatToDecimal(-n);
      "-" + NatToDecimal(-n)
    else
      NatToDecimalDenotes(n);
      NatToDecimal(n)
  }

  // ---------------------------------------------------------------- parsing

  /** WhiteSpace and LineTerminator code points, which StringToNumber ignores at both ends. */
  predicate IsJsSpace(c: char)
  {
    || c == '\U{0009}' || c == '\U{000A}' || c == '\U{000B}' || c == '\U{000C}' || c == '\U{000D}'
    || c == '\U{0020}' || c == '\U{00A0}' || c == '\U{1680}' || ('\U{2000}' <= c <= '\U{200A}')
    || c == '\U{2028}' || c == '\U{2029}' || c == '\U{202F}' || c == '\U{205F}' || c == '\U{3000}'
    || c == '\U{FEFF}'
  }

  function TrimStart(s: string): string
  {
    if s != [] && IsJsSpace(s[0]) then TrimStart(s[1..]) else s
  }

  function TrimEnd(s: string): string
  {
    if s != [] && IsJsSpace(s[|s| - 1]) then TrimEnd(s[..|s| - 1]) else s
  }

  /**
   * ECMAScript's StringToNumber: surrounding white space is ignored, the empty string is 0, then
   * a binary, octal or hexadecimal integer (`0b`, `0o`, `0x`, no sign), or a signed decimal
   * literal (`Infinity`, digits with an optional fraction and exponent); anything else is NaN.
   */
  function StringToNumber(s: string): (r: Number)
    ensures s != [] && AllDigits(s, 10) ==> r == Finite(ValueOf(s, 10), 0)
    ensures |s| >= 2 && s[0] == '-' && AllDigits(s[1..], 10) ==> r == Finite(0 - ValueOf(s[1..], 10), 0)
  {
    DigitStringsReadBack(s);
    var t := TrimEnd(TrimStart(s));
    if t == [] then Finite(0, 0)
    else if |t| >= 2 && t[0] == '0' && t[1] in "xXoObB" then NonDecimalInteger(t[2..], RadixOf(t[1]))
    else if t[0] == '-' then Negate(UnsignedDecimal(t[1..]))
    else if t[0] == '+' then UnsignedDecimal(t[1..])
    else UnsignedDecimal(t)
  }

  function RadixOf(c: char): nat
  {
    if c == 'x' || c == 'X' then 16 else if c == 'o' || c == 'O' then 8 else 2
  }

  function NonDecimalInteger(d: string, radix: nat): Number
  {
    if d != [] && AllDigits(d, radix) then Finite(ValueOf(d, radix), 0) else NaN
  }

  function Negate(x: Number): Number
  {
    match x
    case NaN => NaN
    case Infinity(negative) => Infinity(!negative)
    case Finite(m, e) => Finite(-m, e)
  }

  /** `Infinity`, or `digits [. digits] [e|E [+|-] digits]` with at least one mantissa digit. */
  function UnsignedDecimal(u: string): Number
  {
    if u == "Infinity" then Infinity(false)
    else
      var i := PrefixLength(u, 10);
      Mantissa(u[..i], u[i..])
  }

  /** The digits after an optional decimal point, then the exponent. */
  function Mantissa(whole: string, rest: string): Number
    requires AllDigits(whole, 10)
  {
    if rest != [] && rest[0] == '.' then
      var f := PrefixLength(rest[1..], 10);
      Scaled(whole, rest[1..][..f], rest[1..][f..])
    else Scaled(whole, [], rest)
  }

  /** `whole.fraction` times ten to the exponent in `tail`; no mantissa digit at all is NaN. */
  function Scaled(whole: string, fraction: string, tail: string): Number
    requires AllDigits(whole, 10) && AllDigits(fraction, 10)
  {
    if |whole| + |fraction| == 0 then NaN
    else
      match ExponentPart(tail)
      case None => NaN
      case Some(e) =>
        assert AllDigits(whole + fraction, 10) by {
          forall k | 0 <= k < |whole + fraction|
            ensures IsDigitIn((whole + fraction)[k], 10)
          {
            if k >= |whole| { assert (whole + fraction)[k] == fraction[k - |whole|]; }
          }
        }
        Finite(ValueOf(whole + fraction, 10), e - |fraction|)
  }

  /** The exponent after the mantissa: empty is 0; otherwise `e` or `E`, a sign, and digits. */
  function ExponentPart(tail: string): Option<int>
  {
    if tail == [] then Some(0)
    else if tail[0] != 'e' && tail[0] != 'E' then None
    else
      var x := tail[1..];
      var negative := x != [] && x[0] == '-';
      var digits := if x != [] && (x[0] == '-' || x[0] == '+') then x[1..] else x;
      if digits == [] || !AllDigits(digits, 10) then None
      else
        var magnitude: int := ValueOf(digits, 10);
        Some(if negative then -magnitude else magnitude)
  }

  // ---------------------------------------------------------------- round trip

  /** The decimal form of `n` is made of digits, has no leading zero and denotes `n`. */
  lemma {:induction false} NatToDecimalDenotes(n: nat)
    ensures |NatToDecimal(n)| >= 1 && AllDigits(NatToDecimal(n), 10)
    ensures ValueOf(NatToDecimal(n), 10) == n
    ensures n >= 1 ==> NatToDecimal(n)[0] != '0'
    ensures NatToDecimal(n)[0] == '0' ==> NatToDecimal(n) == "0"
  {
    var s := NatToDecimal(n);
    if n >= 10 {
      NatToDecimalDenotes(n / 10);
      var p := NatToDecimal(n / 10);
      assert s == p + [DigitChar(n % 10)];
      assert s[..|s| - 1] == p;
      assert s[0] == p[0];
    }
  }

  /** Different numbers have different decimal forms. */
  lemma NatToDecimalInjective(m: nat, n: nat)
    requires NatToDecimal(m) == NatToDecimal(n)
    ensures m == n
  {
    NatToDecimalDenotes(m);
    NatToDecimalDenotes(n);
  }

  /** Digits followed by nothing else read back as their value. */
  lemma UnsignedDigits(u: string)
    requires |u| >= 1 && AllDigits(u, 10)
    ensures UnsignedDecimal(u) == Finite(ValueOf(u, 10), 0)
  {
    assert PrefixLength(u, 10) == |u|;
    assert u != "Infinity" by { assert IsDigitIn(u[0], 10); }
    assert u[..|u|] == u && u[|u|..] == [];
    assert Mantissa(u, []) == Scaled(u, [], []);
    assert u + [] == u;
  }

  /** A string that neither starts nor ends with white space is left alone by the trimming. */
  lemma TrimUnchanged(t: string)
    requires t != [] && !IsJsSpace(t[0]) && !IsJsSpace(t[|t| - 1])
    ensures TrimEnd(TrimStart(t)) == t
  {
  }

  /** The steps of StringToNumber on a string of digits, with or without a minus sign. */
  lemma DigitStringsReadBack(s: string)
    ensures s != [] && AllDigits(s, 10) ==>
              TrimEnd(TrimStart(s)) == s && UnsignedDecimal(s) == Finite(ValueOf(s, 10), 0)
    ensures |s| >= 2 && s[0] == '-' && AllDigits(s[1..], 10) ==>
              TrimEnd(TrimStart(s)) == s && UnsignedDecimal(s[1..]) == Finite(ValueOf(s[1..], 10), 0)
  {
    if s != [] && AllDigits(s, 10) {
      assert IsDigitIn(s[0], 10) && IsDigitIn(s[|s| - 1], 10);
      TrimUnchanged(s);
      UnsignedDigits(s);
    }
    if |s| >= 2 && s[0] == '-' && AllDigits(s[1..], 10) {
      assert IsDigitIn(s[1..][|s| - 2], 10);
      TrimUnchanged(s);
      UnsignedDigits(s[1..]);
    }
  }

  /** Reading the decimal form of an integer gives that integer back. */
  lemma DecimalRoundTrip(n: int)
    ensures StringToNumber(IntToDecimal(n)) == Finite(n, 0)
  {
  }

  /** A number written out in decimal compares with 1 as the number itself does. */
  lemma DecimalAtLeastOne(n: int)
    ensures AtLeastOne(StringToNumber(IntToDecimal(n))) <==> n >= 1
  {
    DecimalRoundTrip(n);
  }
}
