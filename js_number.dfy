/** JavaScript's string-to-number coercions as the client uses them: `Number(s)`,
    `Number.parseInt(s, 10)` and `isNaN`. Integers are evaluated exactly; a numeral
    with a fraction, an exponent, a radix prefix or `Infinity` is recognised, and
    of its floating-point value only whether it is zero (underflow included) and
    whether it is below zero are kept. */
module JsNumber {
  import opened Js

  /** A JavaScript number: an integer value, a recognised numeral that is not an
      integer literal (with whether it reads as a zero, which decides its
      truthiness, and whether it is below zero; -0 is not), or NaN. */
  datatype Number = Int(value: int) | Float(isZero: bool, negative: bool) | NaN

  /** JavaScript truthiness of a number: 0 and NaN are falsy. */
  predicate Truthy(n: Number) {
    match n
    case Int(v) => v != 0
    case Float(z, _) => !z
    case NaN => false
  }

  /** `n >= 0`; NaN compares false with everything. */
  predicate NonNegative(n: Number) {
    match n
    case Int(v) => v >= 0
    case Float(_, neg) => !neg
    case NaN => false
  }

  /** The value of a string of decimal digits, most significant first. */
  function DigitsValue(s: string): nat
    requires IsDigits(s)
  {
    if s == [] then 0 else DigitsValue(s[..|s| - 1]) * 10 + (s[|s| - 1] as int - '0' as int)
  }

  /** The length of the longest prefix made of decimal digits. */
  function DigitPrefix(s: string): (k: nat)
    ensures k <= |s| && IsDigits(s[..k])
    ensures k == |s| || !IsDigit(s[k])
  {
    if s != [] && IsDigit(s[0]) then
      var k := 1 + DigitPrefix(s[1..]);
      assert s[..k] == [s[0]] + s[1..][..k - 1];
      k
    else 0
  }

  /** `s` without one leading `+` or `-`. */
  function Unsigned(s: string): string {
    if s != [] && (s[0] == '+' || s[0] == '-') then s[1..] else s
  }

  /** `Number.parseInt(s, 10)`: leading white space is skipped, one sign is allowed,
      then the longest run of decimal digits is read; with no digit the result is NaN. */
  function ParseInt(s: string): (r: Number)
    ensures !r.Float?
    ensures s != [] && IsDigits(s) ==> r == Int(DigitsValue(s))
    ensures IsBlank(s) ==> r == NaN
  {
    var t := TrimStart(s);
    var body := Unsigned(t);
    var k := DigitPrefix(body);
    assert s != [] && IsDigits(s) ==> body[..k] == s by {
      if s != [] && IsDigits(s) {
        DigitStringIsItsOwnNumeral(s);
      }
    }
    if k == 0 then NaN
    else if t[0] == '-' then Int(-(DigitsValue(body[..k]) as int))
    else Int(DigitsValue(body[..k]))
  }

  /** A non-empty run of digits has no white space to trim, no sign to strip, and
      is its own longest digit prefix. */
  lemma DigitStringIsItsOwnNumeral(s: string)
    requires s != [] && IsDigits(s)
    ensures TrimStart(s) == s && Trim(s) == s && Unsigned(s) == s
    ensures DigitPrefix(s) == |s| && s[..DigitPrefix(s)] == s
  {
    assert IsDigit(s[0]) && IsDigit(s[|s| - 1]);
    assert LeadingSpaces(s) == 0;
    assert TrailingSpaces(s) == 0;
    assert s[..|s|] == s;
  }

  /** The index of the first character that is one of `cs`, or the length when none is. */
  function IndexOfAny(s: string, cs: string): (i: nat)
    ensures i <= |s|
    ensures i < |s| ==> s[i] in cs
    ensures forall j :: 0 <= j < i ==> s[j] !in cs
  {
    if s == [] then 0 else if s[0] in cs then 0 else 1 + IndexOfAny(s[1..], cs)
  }

  /** Digits with at most one decimal point and at least one digit. */
  predicate IsMantissa(m: string) {
    var d := IndexOfAny(m, ".");
    && IsDigits(m[..d])
    && (d == |m| || IsDigits(m[d + 1..]))
    && |m| > (if d < |m| then 1 else 0)
  }

  /** What follows `e`/`E` in an exponent: an optional sign and at least one digit. */
  predicate IsExponentDigits(x: string) {
    Unsigned(x) != [] && IsDigits(Unsigned(x))
  }

  /** An unsigned decimal numeral of ECMAScript's StringNumericLiteral grammar:
      `Infinity`, or a mantissa with an optional exponent. */
  predicate IsDecimalNumeral(u: string) {
    || u == "Infinity"
    || (var e := IndexOfAny(u, "eE");
        IsMantissa(u[..e]) && (e == |u| || IsExponentDigits(u[e + 1..])))
  }

  predicate IsHexDigit(c: char) {
    IsDigit(c) || 'a' <= c <= 'f' || 'A' <= c <= 'F'
  }

  /** A numeral with a `0x`, `0o` or `0b` prefix (no sign allowed). */
  predicate IsPrefixedNumeral(t: string) {
    && |t| > 2 && t[0] == '0'
    && var ds := t[2..];
    || ((t[1] == 'x' || t[1] == 'X') && forall i :: 0 <= i < |ds| ==> IsHexDigit(ds[i]))
    || ((t[1] == 'o' || t[1] == 'O') && forall i :: 0 <= i < |ds| ==> '0' <= ds[i] <= '7')
    || ((t[1] == 'b' || t[1] == 'B') && forall i :: 0 <= i < |ds| ==> '0' <= ds[i] <= '1')
  }

  /** `b` to the power `k`. */
  function Pow(b: nat, k: nat): (p: nat)
    ensures b > 0 ==> p > 0
  {
    if k == 0 then 1 else b * Pow(b, k - 1)
  }

  /** The smallest subnormal double is 2^-1074, so a positive value at most half of
      it, 2^-1075, rounds to 0 under round-to-nearest, ties-to-even; anything
      larger rounds to a non-zero double. */
  const UnderflowExponent := 1075

  /** The digits of a mantissa with the point removed, and how many of them follow
      the point. */
  function MantissaDigits(m: string): (r: (string, nat))
    requires IsMantissa(m)
    ensures IsDigits(r.0)
  {
    var d := IndexOfAny(m, ".");
    if d == |m| then
      assert m[..d] == m;
      (m, 0)
    else (m[..d] + m[d + 1..], |m| - d - 1)
  }

  /** The signed value of what follows `e`/`E`. */
  function ExponentValue(x: string): int
    requires IsExponentDigits(x)
  {
    var v := DigitsValue(Unsigned(x)) as int;
    if x[0] == '-' then -v else v
  }

  /** A finite decimal numeral denotes `significand × 10^scale`, where the
      significand is its digits read without the point and the scale is the
      exponent less the number of fraction digits. It reads as a zero when that
      value is 0 or underflows: `significand × 10^scale <= 2^-1075`. */
  predicate RoundsToZero(u: string)
    requires IsDecimalNumeral(u) && u != "Infinity"
  {
    var e := IndexOfAny(u, "eE");
    var (digits, fraction) := MantissaDigits(u[..e]);
    var scale := (if e == |u| then 0 else ExponentValue(u[e + 1..])) - fraction;
    var significand := DigitsValue(digits);
    significand == 0 || (scale < 0 && significand * Pow(2, UnderflowExponent) <= Pow(10, -scale))
  }

  /** A larger exponent gives a larger power. */
  lemma {:induction false} PowMonotone(b: nat, i: nat, j: nat)
    requires b >= 1 && i <= j
    ensures Pow(b, i) <= Pow(b, j)
  {
    if i < j {
      PowMonotone(b, i, j - 1);
      assert Pow(b, j) == b * Pow(b, j - 1);
    }
  }

  /** 2^(3k) = 8^k is at most 10^k. */
  lemma {:induction false} CubeOfTwoBelowTen(k: nat)
    ensures Pow(2, 3 * k) <= Pow(10, k)
  {
    if k > 0 {
      CubeOfTwoBelowTen(k - 1);
      var n := 3 * k;
      assert Pow(2, n) == 8 * Pow(2, n - 3) by {
        assert Pow(2, n) == 2 * Pow(2, n - 1);
        assert Pow(2, n - 1) == 2 * Pow(2, n - 2);
        assert Pow(2, n - 2) == 2 * Pow(2, n - 3);
      }
      assert n - 3 == 3 * (k - 1);
      assert Pow(10, k) == 10 * Pow(10, k - 1);
    }
  }

  /** 10^-400 is below 2^-1075. */
  lemma TenToMinus400Underflows()
    ensures 1 * Pow(2, UnderflowExponent) <= Pow(10, 400)
  {
    CubeOfTwoBelowTen(400);
    PowMonotone(2, UnderflowExponent, 3 * 400);
  }

  /** `1e-400` is a decimal numeral that rounds to zero. */
  lemma TenToMinus400IsZero()
    ensures IsDecimalNumeral("1e-400") && "1e-400" != "Infinity" && RoundsToZero("1e-400")
  {
    var u := "1e-400";
    assert IndexOfAny(u, "eE") == 1 && u[..1] == "1" && u[2..] == "-400";
    assert IsExponentDigits("-400") && ExponentValue("-400") == -400 by {
      assert "400"[..2] == "40" && "40"[..1] == "4" && "4"[..0] == "";
      assert DigitsValue("4") == 4 && DigitsValue("40") == 40 && DigitsValue("400") == 400;
    }
    assert IsMantissa("1") && MantissaDigits("1") == ("1", 0) by {
      assert IndexOfAny("1", ".") == 1;
    }
    assert IsDecimalNumeral(u);
    assert DigitsValue("1") == 1;
    TenToMinus400Underflows();
  }

  /** `Number("1e-400")` underflows to 0 and `Number("-1e-400")` to -0: both read
      as zero, and neither is below zero. */
  lemma UnderflowReadsAsZero()
    ensures ToNumber("1e-400") == Float(true, false)
    ensures ToNumber("-1e-400") == Float(true, false)
  {
    var u := "1e-400";
    var v := "-1e-400";
    assert v[1..] == u;
    assert Trim(u) == u && Trim(v) == v by {
      assert IsTrimmed(u) && IsTrimmed(v);
      TrimKeepsTrimmed(u);
      TrimKeepsTrimmed(v);
    }
    assert Unsigned(v) == u && Unsigned(u) == u;
    assert IsZeroNumeral(u) && IsZeroNumeral(v) by {
      TenToMinus400IsZero();
      assert !IsPrefixedNumeral(u) && !IsPrefixedNumeral(v);
    }
    assert !IsDigits(u) by {
      assert u[1] == 'e';
    }
  }

  /** The numeral reads as a zero: every digit after a radix prefix is `0`, or a
      finite decimal numeral rounds to zero. */
  predicate IsZeroNumeral(t: string)
    requires IsDecimalNumeral(Unsigned(t)) || IsPrefixedNumeral(t)
  {
    if IsPrefixedNumeral(t) then forall i :: 2 <= i < |t| ==> t[i] == '0'
    else Unsigned(t) != "Infinity" && RoundsToZero(Unsigned(t))
  }

  /** A numeral that is not a run of digits: a zero when it reads as one, and
      below zero when it is signed `-` and not a zero. */
  function FloatNumeral(t: string): (r: Number)
    requires IsDecimalNumeral(Unsigned(t)) || IsPrefixedNumeral(t)
    ensures r.Float? && r.isZero == IsZeroNumeral(t)
    ensures r.negative <==> t != [] && t[0] == '-' && !r.isZero
  {
    var zero := IsZeroNumeral(t);
    Float(zero, t != [] && t[0] == '-' && !zero)
  }

  /** The value of a trimmed, non-empty numeral: a signed run of decimal digits is
      that integer, another numeral of the StringNumericLiteral grammar is a
      `Float`, and anything else is NaN. */
  function NumeralValue(t: string): (r: Number)
    ensures t != [] && IsDigits(t) ==> r == Int(DigitsValue(t))
  {
    var body := Unsigned(t);
    if body != [] && IsDigits(body) then
      Int(if t != [] && t[0] == '-' then -(DigitsValue(body) as int) else DigitsValue(body))
    else if IsDecimalNumeral(body) || IsPrefixedNumeral(t) then FloatNumeral(t)
    else NaN
  }

  /** `Number(s)` for a string: surrounding white space is ignored and the blank
      string is 0. */
  function ToNumber(s: string): (r: Number)
    ensures IsBlank(s) ==> r == Int(0)
    ensures s != [] && IsDigits(s) ==> r == Int(DigitsValue(s))
  {
    var t := Trim(s);
    assert s != [] && IsDigits(s) ==> t == s by {
      if s != [] && IsDigits(s) {
        DigitStringIsItsOwnNumeral(s);
      }
    }
    if t == [] then Int(0) else NumeralValue(t)
  }

  /** `String(n)` for a non-negative integer: its decimal digits without leading zeros. */
  function DecimalText(n: nat): (s: string)
    ensures s != [] && IsDigits(s)
  {
    var last := [((n % 10) + '0' as int) as char];
    if n < 10 then last else DecimalText(n / 10) + last
  }

  /** Reading the decimal text of a number back gives the number. */
  lemma {:induction false} DecimalTextRoundTrip(n: nat)
    ensures DigitsValue(DecimalText(n)) == n
  {
    if n >= 10 {
      DecimalTextRoundTrip(n / 10);
      var s := DecimalText(n);
      assert s[..|s| - 1] == DecimalText(n / 10);
    }
  }

  /** `Number(String(n)) === n`: a number written into a text input reads back as itself. */
  lemma NumberOfDecimalText(n: nat)
    ensures ToNumber(DecimalText(n)) == Int(n)
  {
    DecimalTextRoundTrip(n);
  }

  /** `s ? Number(s) : null`: a filled-in numeric input is converted, an empty one
      is null. */
  function NumberOrNull(s: string): (r: Option<Number>)
    ensures r.Some? <==> s != []
    ensures r.Some? ==> r.value == ToNumber(s)
  {
    if s == [] then None else Some(ToNumber(s))
  }

  /** The global `isNaN` applied to a string. */
  predicate IsNaN(s: string) {
    ToNumber(s) == NaN
  }
}
