/**
 * The JavaScript conversions the admin pages apply to form text: `s || null`,
 * `parseFloat`, `parseInt` with no radix, `Number.prototype.toFixed(2)` and
 * `toString` of an integer. Numbers are exact rationals; `None` stands for
 * `NaN`, which `JSON.stringify` sends as `null`.
 */
module JsValues {
  import opened Wrappers
  import opened Text

  /** `s || null` on a form string: the empty string is falsy. */
  function OrNull(s: string): (r: Option<string>)
    ensures r.None? <==> s == ""
    ensures r.Some? ==> r.value == s
  {
    if s == "" then None else Some(s)
  }

  function Pow10(n: nat): (p: nat)
    ensures p >= 1
  {
    if n == 0 then 1 else 10 * Pow10(n - 1)
  }

  // ---------------------------------------------------------------- parsing

  /**
   * The characters JavaScript trims before reading a number: the white space
   * characters (tab, vertical tab, form feed, the byte order mark and the Unicode
   * space separators) and the line terminators.
   */
  predicate IsJsSpace(c: char)
  {
    var n := c as int;
    9 <= n <= 13 || n == 32 || n == 0xA0 || n == 0x1680 || 0x2000 <= n <= 0x200A ||
    n == 0x2028 || n == 0x2029 || n == 0x202F || n == 0x205F || n == 0x3000 || n == 0xFEFF
  }

  /** The text after the leading JavaScript white space. */
  function TrimStart(s: string): string
  {
    if s != [] && IsJsSpace(s[0]) then TrimStart(s[1..]) else s
  }

  /** The longest run of decimal digits at the start of `s`. */
  function DigitPrefix(s: string): (p: string)
    ensures IsPrefix(p, s) && AllDigits(p)
    ensures |p| == |s| || !IsDigit(s[|p|])
  {
    if s != [] && IsDigit(s[0]) then [s[0]] + DigitPrefix(s[1..]) else []
  }

  /** A run of digits followed by a non-digit (or nothing) is the whole digit prefix. */
  lemma {:induction false} DigitPrefixOf(d: string, rest: string)
    requires AllDigits(d)
    requires rest == [] || !IsDigit(rest[0])
    ensures DigitPrefix(d + rest) == d
    decreases |d|
  {
    if d != [] {
      assert (d + rest)[1..] == d[1..] + rest;
      DigitPrefixOf(d[1..], rest);
    } else {
      assert d + rest == rest;
    }
  }

  /** The unsigned decimal literal at the start of `s`: digits, then optionally `.` and digits. */
  function UnsignedPrefix(s: string): Option<real>
  {
    var whole := DigitPrefix(s);
    var rest := s[|whole|..];
    var frac := if rest != [] && rest[0] == '.' then DigitPrefix(rest[1..]) else [];
    if |whole| + |frac| == 0 then None
    else Some(DecValue(whole) as real + FracValue(frac))
  }

  /** The value of the digits after a decimal point: `0.d1d2...`. */
  function FracValue(f: string): (v: real)
    requires AllDigits(f)
  {
    if f == [] then 0.0 else (DigitValue(f[0]) as real + FracValue(f[1..])) / 10.0
  }

  /**
   * `parseFloat(s)`: leading white space, an optional sign and the longest
   * decimal literal; anything after it is ignored, and no literal at all is `NaN`.
   */
  function ParseFloat(s: string): Option<real>
  {
    var t := TrimStart(s);
    if t != [] && (t[0] == '-' || t[0] == '+') then
      match UnsignedPrefix(t[1..])
      case None => None
      case Some(v) => Some(if t[0] == '-' then -v else v)
    else
      UnsignedPrefix(t)
  }

  predicate IsHexDigit(c: char)
  {
    IsDigit(c) || 'a' <= c <= 'f' || 'A' <= c <= 'F'
  }

  function HexDigitValue(c: char): nat
    requires IsHexDigit(c)
  {
    if IsDigit(c) then DigitValue(c)
    else if 'a' <= c <= 'f' then (c as int) - 87
    else (c as int) - 55
  }

  /** The longest run of hexadecimal digits at the start of `s`. */
  function HexPrefix(s: string): (p: string)
    ensures |p| <= |s| && forall i :: 0 <= i < |p| ==> IsHexDigit(p[i])
  {
    if s != [] && IsHexDigit(s[0]) then [s[0]] + HexPrefix(s[1..]) else []
  }

  function HexValue(s: string): nat
    requires forall i :: 0 <= i < |s| ==> IsHexDigit(s[i])
  {
    if s == [] then 0 else HexValue(s[..|s| - 1]) * 16 + HexDigitValue(s[|s| - 1])
  }

  predicate HasHexMarker(s: string)
  {
    |s| >= 2 && s[0] == '0' && (s[1] == 'x' || s[1] == 'X')
  }

  /** The magnitude `parseInt` reads after the sign: hexadecimal after `0x`, else decimal. */
  function UnsignedInt(s: string): Option<int>
  {
    if HasHexMarker(s) then
      var h := HexPrefix(s[2..]);
      if h == [] then None else Some(HexValue(h))
    else
      var d := DigitPrefix(s);
      if d == [] then None else Some(DecValue(d))
  }

  /**
   * `parseInt(s)` with no radix: leading white space, an optional sign, then
   * the longest run of digits (hexadecimal after a `0x` marker); no digit is `NaN`.
   */
  function ParseInt(s: string): Option<int>
  {
    var t := TrimStart(s);
    if t != [] && (t[0] == '-' || t[0] == '+') then
      match UnsignedInt(t[1..])
      case None => None
      case Some(v) => Some(if t[0] == '-' then -v else v)
    else
      UnsignedInt(t)
  }

  // ---------------------------------------------------------------- rendering

  /**
   * The integer `toFixed(places)` scales its result from: the `n` with
   * `n / 10^places` nearest to `x`, the larger one on a tie.
   */
  function Nearest(x: real, places: nat): (n: nat)
    requires x >= 0.0
    ensures n as real <= x * Pow10(places) as real + 0.5 < n as real + 1.0
  {
    (x * Pow10(places) as real + 0.5).Floor
  }

  /**
   * The value `parseFloat(x.toFixed(places))` denotes: `x` rounded to
   * `places` decimals, halves away from zero (`toFixed` rounds `|x|`).
   */
  function FixedValue(x: real, places: nat): (r: real)
    ensures x * Pow10(places) as real - 0.5 <= r * Pow10(places) as real <= x * Pow10(places) as real + 0.5
  {
    var p := Pow10(places) as real;
    var n: int := if x < 0.0 then -(Nearest(-x, places) as int) else Nearest(x, places);
    assert (n as real / p) * p == n as real;
    n as real / p
  }

  /** The hundredths `toFixed(2)` keeps of a non-negative `x`: `x * 100` rounded, a half upwards. */
  function Hundredths(x: real): (n: nat)
    requires x >= 0.0
    ensures n as real <= x * 100.0 + 0.5 < n as real + 1.0
  {
    (x * 100.0 + 0.5).Floor
  }

  /** The value `parseFloat(x.toFixed(2))` denotes: within half a hundredth of `x`. */
  function Round2(x: real): (r: real)
    ensures x - 0.005 <= r <= x + 0.005
  {
    if x < 0.0 then -(Hundredths(-x) as real / 100.0) else Hundredths(x) as real / 100.0
  }

  /** `Round2` is `FixedValue` at two places. */
  lemma Round2IsFixedValue(x: real)
    ensures Round2(x) == FixedValue(x, 2)
  {
    assert Pow10(2) == 100;
    if x < 0.0 {
      assert Nearest(-x, 2) == Hundredths(-x);
    } else {
      assert Nearest(x, 2) == Hundredths(x);
    }
  }

  function Fixed2(n: nat): (s: string)
  {
    Digits(n / 100) + "." + [DigitChar(n % 100 / 10), DigitChar(n % 10)]
  }

  /** `x.toFixed(2)`: the sign, then `Round2(|x|)` with exactly two decimals. */
  function ToFixed2(x: real): (s: string)
  {
    if x < 0.0 then "-" + Fixed2(Hundredths(-x)) else Fixed2(Hundredths(x))
  }

  /** Two digits after the point are worth hundredths. */
  lemma FracValueOfTwo(n: nat)
    ensures FracValue([DigitChar(n % 100 / 10), DigitChar(n % 10)]) == (n % 100) as real / 100.0
  {
    var two := [DigitChar(n % 100 / 10), DigitChar(n % 10)];
    assert two[1..] == [two[1]] && two[1..][1..] == [];
    assert FracValue(two[1..]) == DigitValue(two[1]) as real / 10.0;
    assert DigitValue(two[0]) == n % 100 / 10 && DigitValue(two[1]) == n % 10;
    assert n % 100 == n % 100 / 10 * 10 + n % 10;
  }

  lemma UnsignedOfFixed2(n: nat)
    ensures UnsignedPrefix(Fixed2(n)) == Some(n as real / 100.0)
  {
    var whole := Digits(n / 100);
    var two := [DigitChar(n % 100 / 10), DigitChar(n % 10)];
    var s := Fixed2(n);
    assert s == whole + ("." + two);
    DigitPrefixOf(whole, "." + two);
    assert DigitPrefix(s) == whole;
    var rest := s[|whole|..];
    assert rest == "." + two;
    assert rest != [] && rest[0] == '.';
    assert rest[1..] == two + [];
    DigitPrefixOf(two, []);
    assert DigitPrefix(rest[1..]) == two;
    DecValueOfDigits(n / 100);
    FracValueOfTwo(n);
    assert DecValue(whole) as real + FracValue(two) == n as real / 100.0 by {
      assert n == n / 100 * 100 + n % 100;
    }
  }

  lemma TrimDigitFirst(u: string)
    requires u != [] && IsDigit(u[0])
    ensures TrimStart(u) == u && TrimStart("-" + u) == "-" + u
    ensures ("-" + u)[1..] == u
  {
    var m := "-" + u;
    assert !IsJsSpace(u[0]) && m[0] == '-';
    assert m[1..] == u;
  }

  /** A text that starts with a digit is read as an unsigned literal, with or without a minus sign. */
  lemma ParseFloatDigitFirst(u: string)
    requires u != [] && IsDigit(u[0])
    ensures ParseFloat(u) == UnsignedPrefix(u)
  {
    TrimDigitFirst(u);
  }

  lemma ParseFloatNegated(u: string, v: real)
    requires u != [] && IsDigit(u[0])
    requires UnsignedPrefix(u) == Some(v)
    ensures ParseFloat("-" + u) == Some(-v)
  {
    TrimDigitFirst(u);
  }

  lemma ParseIntDigitFirst(u: string)
    requires u != [] && IsDigit(u[0])
    ensures ParseInt(u) == UnsignedInt(u)
  {
    TrimDigitFirst(u);
  }

  lemma ParseIntNegated(u: string, v: int)
    requires u != [] && IsDigit(u[0])
    requires UnsignedInt(u) == Some(v)
    ensures ParseInt("-" + u) == Some(-v)
  {
    TrimDigitFirst(u);
  }

  lemma ParseFixed2Text(n: nat)
    ensures ParseFloat(Fixed2(n)) == Some(n as real / 100.0)
  {
    var u := Fixed2(n);
    assert IsDigit(u[0]);
    UnsignedOfFixed2(n);
    ParseFloatDigitFirst(u);
  }

  lemma ParseNegatedFixed2Text(n: nat)
    ensures ParseFloat("-" + Fixed2(n)) == Some(-(n as real / 100.0))
  {
    var u := Fixed2(n);
    var v := n as real / 100.0;
    assert IsDigit(u[0]);
    UnsignedOfFixed2(n);
    assert UnsignedPrefix(u) == Some(v);
    ParseFloatNegated(u, v);
    assert ParseFloat("-" + u) == Some(-v);
  }

  /** `parseFloat(x.toFixed(2))` is `x` rounded to hundredths. */
  lemma ParseFixed2(x: real)
    ensures ParseFloat(ToFixed2(x)) == Some(Round2(x))
  {
    if x < 0.0 {
      ParseFixed2Negative(x, Hundredths(-x));
    } else {
      ParseFixed2NonNegative(x, Hundredths(x));
    }
  }

  lemma ParseFixed2Negative(x: real, n: nat)
    requires x < 0.0 && n == Hundredths(-x)
    ensures ParseFloat(ToFixed2(x)) == Some(Round2(x))
  {
    var t := "-" + Fixed2(n);
    assert ToFixed2(x) == t;
    ParseNegatedFixed2Text(n);
    assert ParseFloat(t) == Some(-(n as real / 100.0));
  }

  lemma ParseFixed2NonNegative(x: real, n: nat)
    requires x >= 0.0 && n == Hundredths(x)
    ensures ParseFloat(ToFixed2(x)) == Some(Round2(x))
  {
    var t := Fixed2(n);
    assert ToFixed2(x) == t;
    ParseFixed2Text(n);
    assert ParseFloat(t) == Some(n as real / 100.0);
  }

  lemma UnsignedOfDigits(n: nat)
    ensures UnsignedPrefix(Digits(n)) == Some(n as real)
    ensures UnsignedInt(Digits(n)) == Some(n)
  {
    var d := Digits(n);
    DigitPrefixOf(d, []);
    assert d + [] == d;
    assert d[|d|..] == [];
    DecValueOfDigits(n);
    assert !HasHexMarker(d);
  }

  lemma ParseFloatNegatedDigits(n: nat)
    ensures ParseFloat("-" + Digits(n)) == Some(-(n as real))
  {
    var u := Digits(n);
    UnsignedOfDigits(n);
    assert UnsignedPrefix(u) == Some(n as real);
    ParseFloatNegated(u, n as real);
  }

  lemma ParseIntNegatedDigits(n: nat)
    ensures ParseInt("-" + Digits(n)) == Some(-(n as int))
  {
    var u := Digits(n);
    UnsignedOfDigits(n);
    assert UnsignedInt(u) == Some(n);
    ParseIntNegated(u, n);
  }

  lemma ParseFloatOfIntString(i: int)
    ensures ParseFloat(IntToString(i)) == Some(i as real)
  {
    if i < 0 {
      ParseFloatNegatedDigits(-i);
      assert IntToString(i) == "-" + Digits(-i);
    } else {
      UnsignedOfDigits(i);
      ParseFloatDigitFirst(Digits(i));
    }
  }

  lemma ParseIntOfIntString(i: int)
    ensures ParseInt(IntToString(i)) == Some(i)
  {
    if i < 0 {
      ParseIntNegatedDigits(-i);
      assert IntToString(i) == "-" + Digits(-i);
    } else {
      UnsignedOfDigits(i);
      ParseIntDigitFirst(Digits(i));
    }
  }

  /** `parseFloat(String(i))` and `parseInt(String(i))` read an integer back exactly. */
  lemma ParseIntToString(i: int)
    ensures ParseFloat(IntToString(i)) == Some(i as real)
    ensures ParseInt(IntToString(i)) == Some(i)
  {
    ParseFloatOfIntString(i);
    ParseIntOfIntString(i);
  }
}
