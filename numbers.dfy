/**
 * Conversions between numbers and their text: `String(n)` for the natural
 * numbers the games print, and JavaScript's `parseInt(s)` (no radix argument)
 * for the number a parent types into the gate.
 */
module Numbers {
  import opened Wrappers

  // ---------------------------------------------------------------------------
  // Decimal strings
  // ---------------------------------------------------------------------------

  /** The character of decimal digit d. */
  function Digit(d: nat): char
    requires d < 10
  {
    (48 + d) as char
  }

  /** `String(n)` for a natural number: its decimal digits. */
  function NatString(n: nat): (s: string)
    ensures |s| >= 1 && (n < 10 <==> |s| == 1)
  {
    if n < 10 then [Digit(n)] else NatString(n / 10) + [Digit(n % 10)]
  }

  /** Different numbers have different decimal strings. */
  lemma {:induction false} NatStringInjective(n: nat, m: nat)
    requires NatString(n) == NatString(m)
    ensures n == m
  {
    var s := NatString(n);
    if n < 10 {
      assert m < 10 && Digit(n) == s[0] == Digit(m);
    } else {
      assert m >= 10;
      assert Digit(n % 10) == s[|s| - 1] == Digit(m % 10);
      assert NatString(n / 10) == s[..|s| - 1] == NatString(m / 10);
      NatStringInjective(n / 10, m / 10);
      assert n == 10 * (n / 10) + n % 10;
      assert m == 10 * (m / 10) + m % 10;
    }
  }

  // ---------------------------------------------------------------------------
  // parseInt
  // ---------------------------------------------------------------------------

  /**
   * The characters `parseInt` skips before the number: white space (tab,
   * vertical tab, form feed, the byte-order mark and the space separators)
   * and line terminators.
   */
  predicate IsSpace(c: char) {
    || c == '\t' || c == '\U{000B}' || c == '\U{000C}' || c == '\U{FEFF}'
    || c == ' ' || c == '\U{00A0}' || c == '\U{1680}' || ('\U{2000}' <= c <= '\U{200A}')
    || c == '\U{202F}' || c == '\U{205F}' || c == '\U{3000}'
    || c == '\n' || c == '\r' || c == '\U{2028}' || c == '\U{2029}'
  }

  /** The value of a letter or digit as a digit of radix up to 36: 0-9, then a/A = 10 up to z/Z = 35. */
  function DigitValue(c: char): (v: Option<nat>)
    ensures v.Some? ==> v.value < 36
  {
    if '0' <= c <= '9' then Some(c as int - '0' as int)
    else if 'a' <= c <= 'z' then Some(c as int - 'a' as int + 10)
    else if 'A' <= c <= 'Z' then Some(c as int - 'A' as int + 10)
    else None
  }

  predicate IsRadixDigit(c: char, radix: nat) {
    DigitValue(c).Some? && DigitValue(c).value < radix
  }

  /** Scaling a number by the radix keeps it natural (a hint the nonlinear step in `Value` needs). */
  lemma ScaledNatural(high: nat, radix: nat)
    ensures high * radix >= 0
  {
  }

  /** `s` without its leading white space. */
  function TrimStart(s: string): (r: string)
    ensures |r| <= |s| && r == s[|s| - |r|..]
    ensures r == [] || !IsSpace(r[0])
    ensures forall k :: 0 <= k < |s| - |r| ==> IsSpace(s[k])
  {
    if s != [] && IsSpace(s[0]) then TrimStart(s[1..]) else s
  }

  /** The longest prefix of `s` made of digits of the radix. */
  function LeadingDigits(s: string, radix: nat): (r: string)
    ensures |r| <= |s| && r == s[..|r|]
    ensures forall k :: 0 <= k < |r| ==> IsRadixDigit(r[k], radix)
    ensures |r| < |s| ==> !IsRadixDigit(s[|r|], radix)
  {
    if s != [] && IsRadixDigit(s[0], radix) then [s[0]] + LeadingDigits(s[1..], radix) else []
  }

  /** The number a string of digits of the radix stands for, most significant digit first. */
  function Value(ds: string, radix: nat): nat
    requires forall k :: 0 <= k < |ds| ==> IsRadixDigit(ds[k], radix)
  {
    if ds == [] then 0
    else
      assert IsRadixDigit(ds[|ds| - 1], radix);
      var high := Value(ds[..|ds| - 1], radix);
      ScaledNatural(high, radix);
      high * radix + DigitValue(ds[|ds| - 1]).value
  }

  /**
   * The unsigned part of `parseInt`: a `0x` or `0X` prefix switches to radix
   * 16, then the longest run of digits is read; `None` (NaN) when it is empty.
   */
  function ParseMagnitude(u: string): Option<nat> {
    var hex := |u| >= 2 && u[0] == '0' && (u[1] == 'x' || u[1] == 'X');
    var radix := if hex then 16 else 10;
    var digits := LeadingDigits(if hex then u[2..] else u, radix);
    if digits == [] then None else Some(Value(digits, radix))
  }

  /** `parseInt(s)`: leading white space skipped, an optional sign, then the magnitude. */
  function ParseInt(s: string): Option<int> {
    var t := TrimStart(s);
    var negative := |t| > 0 && t[0] == '-';
    var unsigned := if |t| > 0 && (t[0] == '-' || t[0] == '+') then t[1..] else t;
    match ParseMagnitude(unsigned)
    case None => None
    case Some(m) =>
      var magnitude: int := m;
      Some(if negative then -magnitude else magnitude)
  }

  /** Decimal strings are made of decimal digits only. */
  lemma {:induction false} NatStringDigits(n: nat)
    ensures forall k :: 0 <= k < |NatString(n)| ==> '0' <= NatString(n)[k] <= '9'
  {
    if n >= 10 {
      NatStringDigits(n / 10);
    }
  }

  /** The digits of `String(n)` stand for n. */
  lemma {:induction false} NatStringValue(n: nat)
    ensures forall k :: 0 <= k < |NatString(n)| ==> IsRadixDigit(NatString(n)[k], 10)
    ensures Value(NatString(n), 10) == n
  {
    NatStringDigits(n);
    DecimalDigits(NatString(n));
    if n >= 10 {
      NatStringValue(n / 10);
      var s := NatString(n);
      assert s[..|s| - 1] == NatString(n / 10);
    }
  }

  /** A run of digits followed by anything that is not a digit is the leading run. */
  lemma {:induction false} LeadingDigitsOf(ds: string, rest: string, radix: nat)
    requires forall k :: 0 <= k < |ds| ==> IsRadixDigit(ds[k], radix)
    requires rest == [] || !IsRadixDigit(rest[0], radix)
    ensures LeadingDigits(ds + rest, radix) == ds
  {
    if ds != [] {
      assert (ds + rest)[1..] == ds[1..] + rest;
      LeadingDigitsOf(ds[1..], rest, radix);
    }
  }

  /** Decimal digits are the digits of radix 10. */
  lemma DecimalDigits(ds: string)
    requires forall k :: 0 <= k < |ds| ==> '0' <= ds[k] <= '9'
    ensures forall k :: 0 <= k < |ds| ==> IsRadixDigit(ds[k], 10)
  {
  }

  /**
   * A run of decimal digits followed by anything but a decimal digit reads as
   * the run's value, unless the run is a lone `0` followed by `x` or `X`,
   * which starts a hexadecimal number instead.
   */
  lemma MagnitudeDigits(ds: string, rest: string)
    requires ds != [] && forall k :: 0 <= k < |ds| ==> IsRadixDigit(ds[k], 10)
    requires rest == [] || !IsRadixDigit(rest[0], 10)
    requires ds == "0" && rest != [] ==> rest[0] != 'x' && rest[0] != 'X'
    ensures ParseMagnitude(ds + rest) == Some(Value(ds, 10))
  {
    var u := ds + rest;
    NoHexPrefix(ds, rest);
    LeadingDigitsOf(ds, rest, 10);
    assert !(|u| >= 2 && u[0] == '0' && (u[1] == 'x' || u[1] == 'X'));
    assert LeadingDigits(u, 10) == ds;
  }

  /** Such a run has no `0x` prefix: its second character is a digit, or it does not start with a lone `0` and an `x`. */
  lemma NoHexPrefix(ds: string, rest: string)
    requires ds != [] && forall k :: 0 <= k < |ds| ==> IsRadixDigit(ds[k], 10)
    requires ds == "0" && rest != [] ==> rest[0] != 'x' && rest[0] != 'X'
    ensures |ds + rest| < 2 || (ds + rest)[0] != '0' || ((ds + rest)[1] != 'x' && (ds + rest)[1] != 'X')
  {
    if |ds| >= 2 {
      assert (ds + rest)[1] == ds[1] && IsRadixDigit(ds[1], 10);
    } else if |ds + rest| >= 2 && ds[0] == '0' {
      assert ds == "0" && (ds + rest)[1] == rest[0];
    }
  }

  /**
   * The same run read by `parseInt`, followed by anything but a decimal digit
   * (a letter too, except the `x` of a `0x` prefix): it starts with a digit,
   * so there is no white space and no sign.
   */
  lemma ParseDigits(ds: string, rest: string)
    requires ds != [] && forall k :: 0 <= k < |ds| ==> IsRadixDigit(ds[k], 10)
    requires rest == [] || !IsRadixDigit(rest[0], 10)
    requires ds == "0" && rest != [] ==> rest[0] != 'x' && rest[0] != 'X'
    ensures ParseInt(ds + rest) == Some(Value(ds, 10))
  {
    var s := ds + rest;
    assert s[0] == ds[0];
    DigitNotSpace(s[0]);
    MagnitudeDigits(ds, rest);
    ParseUnsigned(s);
  }

  /** Text starting with neither white space nor a sign is read as a magnitude alone. */
  lemma ParseUnsigned(s: string)
    requires s != [] && !IsSpace(s[0]) && s[0] != '-' && s[0] != '+'
    requires ParseMagnitude(s).Some?
    ensures ParseInt(s) == Some(ParseMagnitude(s).value)
  {
    TrimStartNoSpace(s);
  }

  /** A digit is neither white space nor a sign. */
  lemma DigitNotSpace(c: char)
    requires IsRadixDigit(c, 10)
    ensures !IsSpace(c) && c != '-' && c != '+'
  {
    assert '0' <= c <= '9';
  }

  /** A string that does not start with white space is its own trimmed form. */
  lemma TrimStartNoSpace(s: string)
    requires s == [] || !IsSpace(s[0])
    ensures TrimStart(s) == s
  {
  }

  /**
   * `parseInt` reads back the decimal string of a natural number and stops at
   * the first character that is not a decimal digit, so `"12"`, `"12.5"`,
   * `"12 "` and `"12a"` all read as 12. Only `"0x..."` reads otherwise, as
   * hexadecimal.
   */
  lemma ParseNatString(n: nat, rest: string)
    requires rest == [] || !IsRadixDigit(rest[0], 10)
    requires n == 0 && rest != [] ==> rest[0] != 'x' && rest[0] != 'X'
    ensures ParseInt(NatString(n) + rest) == Some(n)
  {
    NatStringValue(n);
    ParseDigits(NatString(n), rest);
  }

  /** With no digit after the optional sign, `parseInt` gives NaN; in particular for the empty input. */
  lemma ParseIntEmpty()
    ensures ParseInt("") == None
    ensures ParseInt("-") == None
  {
    TrimStartNoSpace("");
    TrimStartNoSpace("-");
    assert "-"[1..] == "";
  }
}
