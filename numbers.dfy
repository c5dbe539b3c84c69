/**
 * `Number.parseInt(s)` with no radix, as the cart DELETE handler applies it to
 * its `userId` query parameter, and the decimal rendering `${n}` a client uses
 * to build that parameter. `None` stands for NaN.
 */
module Numbers {
  import opened Wrappers

  /** The characters TrimString removes: WhiteSpace and LineTerminator. */
  predicate IsJsWhitespace(c: char) {
    || c == '\t' || c == '\n' || c == '\U{B}' || c == '\U{C}' || c == '\r' || c == ' '
    || c == '\U{A0}' || c == '\U{1680}' || ('\U{2000}' <= c <= '\U{200A}')
    || c == '\U{2028}' || c == '\U{2029}' || c == '\U{202F}' || c == '\U{205F}'
    || c == '\U{3000}' || c == '\U{FEFF}'
  }

  /** Leading white space removed. */
  function TrimStart(s: string): (r: string)
    ensures |r| <= |s| && r == s[|s| - |r|..]
    ensures r == [] || !IsJsWhitespace(r[0])
    ensures forall k :: 0 <= k < |s| - |r| ==> IsJsWhitespace(s[k])
  {
    if s != [] && IsJsWhitespace(s[0]) then TrimStart(s[1..]) else s
  }

  /** The value of a digit character in any radix up to 36, letters in either case. */
  function DigitValue(c: char): Option<nat> {
    if '0' <= c <= '9' then Some(c as int - '0' as int)
    else if 'a' <= c <= 'z' then Some(c as int - 'a' as int + 10)
    else if 'A' <= c <= 'Z' then Some(c as int - 'A' as int + 10)
    else None
  }

  predicate IsDigit(c: char, radix: nat) {
    DigitValue(c).Some? && DigitValue(c).value < radix
  }

  /** The length of the longest prefix of `s` made of radix-`radix` digits. */
  function LeadingDigits(s: string, radix: nat): (n: nat)
    ensures n <= |s|
    ensures forall k :: 0 <= k < n ==> IsDigit(s[k], radix)
    ensures n == |s| || !IsDigit(s[n], radix)
  {
    if s != [] && IsDigit(s[0], radix) then 1 + LeadingDigits(s[1..], radix) else 0
  }

  /** The number a string of digits denotes, most significant digit first. */
  function DigitsValue(d: string, radix: nat): nat {
    if d == [] then 0
    else
      var last := match DigitValue(d[|d| - 1]) case Some(v) => v case None => 0;
      DigitsValue(d[..|d| - 1], radix) * radix + last
  }

  /** The leading run of radix-`radix` digits, read as a number; NaN when the run is empty. */
  function ReadDigits(body: string, radix: nat): Option<int> {
    var n := LeadingDigits(body, radix);
    if n == 0 then None else Some(DigitsValue(body[..n], radix))
  }

  predicate HasHexPrefix(u: string) {
    |u| >= 2 && u[0] == '0' && (u[1] == 'x' || u[1] == 'X')
  }

  /** The text after the sign: a "0x" or "0X" prefix selects radix 16, otherwise radix 10. */
  function ReadMagnitude(u: string): Option<int> {
    if HasHexPrefix(u) then ReadDigits(u[2..], 16) else ReadDigits(u, 10)
  }

  function Negate(m: Option<int>): Option<int> {
    match m
    case None => None
    case Some(v) => Some(-v)
  }

  /**
   * `Number.parseInt(s)`: skip leading white space, take one optional sign, take
   * a "0x" or "0X" prefix as radix 16 (radix 10 otherwise), then read the longest
   * run of digits; NaN when that run is empty. Whatever follows the digits is
   * ignored.
   */
  function ParseInt(input: string): Option<int> {
    var s := TrimStart(input);
    if s != [] && s[0] == '-' then Negate(ReadMagnitude(s[1..]))
    else if s != [] && s[0] == '+' then ReadMagnitude(s[1..])
    else ReadMagnitude(s)
  }

  function DigitChar(n: nat): (c: char)
    requires n < 10
    ensures IsDigit(c, 10) && DigitValue(c) == Some(n)
  {
    ('0' as int + n) as char
  }

  /** The decimal digits of `n`, with no leading zero. */
  function DecimalDigits(n: nat): (d: string)
    ensures |d| > 0
    ensures forall k :: 0 <= k < |d| ==> IsDigit(d[k], 10)
    ensures d[0] == '0' ==> n == 0
  {
    if n < 10 then [DigitChar(n)] else DecimalDigits(n / 10) + [DigitChar(n % 10)]
  }

  /** `${n}` for an integer `n`: a minus sign for negatives, then the decimal digits. */
  function ToDecimal(n: int): string {
    if n < 0 then "-" + DecimalDigits(-n) else DecimalDigits(n)
  }

  /** `${n}` is a minus sign exactly for negatives, and digits everywhere else. */
  lemma ToDecimalShape(n: int)
    ensures var r := ToDecimal(n);
      && r != [] && (r[0] == '-' <==> n < 0)
      && (n >= 0 ==> IsDigit(r[0], 10))
      && forall k :: 0 < k < |r| ==> IsDigit(r[k], 10)
  {
    if n < 0 {
      var r := ToDecimal(n);
      assert forall k :: 0 < k < |r| ==> r[k] == DecimalDigits(-n)[k - 1];
    }
  }

  lemma {:induction false} DecimalDigitsValue(n: nat)
    ensures DigitsValue(DecimalDigits(n), 10) == n
  {
    var d := DecimalDigits(n);
    if n >= 10 {
      DecimalDigitsValue(n / 10);
      assert d[..|d| - 1] == DecimalDigits(n / 10);
    }
  }

  lemma {:induction false} LeadingDigitsOfDigits(d: string, rest: string, radix: nat)
    requires forall k :: 0 <= k < |d| ==> IsDigit(d[k], radix)
    requires rest == [] || !IsDigit(rest[0], radix)
    ensures LeadingDigits(d + rest, radix) == |d|
  {
    if d != [] {
      assert (d + rest)[1..] == d[1..] + rest;
      LeadingDigitsOfDigits(d[1..], rest, radix);
    } else {
      assert d + rest == rest;
    }
  }

  /** Digits followed by something that is not a digit read as the digits' value. */
  lemma {:induction false} ReadDecimalDigits(d: string, rest: string)
    requires d != [] && forall k :: 0 <= k < |d| ==> IsDigit(d[k], 10)
    requires rest == [] || !IsDigit(rest[0], 10)
    ensures ReadDigits(d + rest, 10) == Some(DigitsValue(d, 10))
  {
    LeadingDigitsOfDigits(d, rest, 10);
    assert (d + rest)[..|d|] == d;
  }

  /** The rendering of a natural number, with such a suffix, reads back as that number. */
  lemma {:induction false} ReadMagnitudeDecimal(n: nat, rest: string)
    requires rest == [] || !IsDigit(rest[0], 10)
    requires n == 0 && rest != [] ==> rest[0] != 'x' && rest[0] != 'X'
    ensures ReadMagnitude(DecimalDigits(n) + rest) == Some(n)
  {
    var d := DecimalDigits(n);
    var u := d + rest;
    assert u[0] == d[0];
    if |u| >= 2 {
      assert u[1] == if |d| >= 2 then d[1] else rest[0];
    }
    assert !HasHexPrefix(u);
    ReadDecimalDigits(d, rest);
    DecimalDigitsValue(n);
  }

  /** Text that starts with a digit is parsed by its magnitude alone. */
  lemma ParseIntOfDigitFirst(s: string)
    requires s != [] && IsDigit(s[0], 10)
    ensures ParseInt(s) == ReadMagnitude(s)
  {
    assert TrimStart(s) == s;
  }

  /** Text that starts with a minus sign is parsed as the negated magnitude of the rest. */
  lemma ParseIntOfMinusFirst(s: string)
    requires s != [] && s[0] == '-'
    ensures ParseInt(s) == Negate(ReadMagnitude(s[1..]))
  {
    assert TrimStart(s) == s;
  }

  /** A non-negative rendering is its digits alone, with no white space or sign in front. */
  lemma {:induction false} ParseIntNonNegative(n: nat, rest: string)
    requires rest == [] || !IsDigit(rest[0], 10)
    requires n == 0 && rest != [] ==> rest[0] != 'x' && rest[0] != 'X'
    ensures ParseInt(ToDecimal(n) + rest) == Some(n)
  {
    var d := DecimalDigits(n);
    assert ToDecimal(n) + rest == d + rest;
    assert (d + rest)[0] == d[0];
    ParseIntOfDigitFirst(d + rest);
    ReadMagnitudeDecimal(n, rest);
  }

  /** A minus sign followed by the rendering of a positive number parses as its negation. */
  lemma {:induction false} ParseIntMinusDigits(m: nat, rest: string)
    requires m > 0
    requires rest == [] || !IsDigit(rest[0], 10)
    ensures ParseInt("-" + DecimalDigits(m) + rest) == Some(-(m as int))
  {
    var u := DecimalDigits(m) + rest;
    var s := "-" + DecimalDigits(m) + rest;
    assert s[0] == '-' && s[1..] == u;
    ParseIntOfMinusFirst(s);
    ReadMagnitudeDecimal(m, rest);
  }

  lemma NegativeRendering(n: int, rest: string)
    requires n < 0
    ensures ParseInt(ToDecimal(n) + rest) == ParseInt("-" + DecimalDigits(-n) + rest)
  {
    assert ToDecimal(n) + rest == "-" + DecimalDigits(-n) + rest;
  }

  /** A negative rendering is a minus sign and the digits of the magnitude. */
  lemma {:induction false} ParseIntNegative(n: int, rest: string)
    requires n < 0
    requires rest == [] || !IsDigit(rest[0], 10)
    ensures ParseInt(ToDecimal(n) + rest) == Some(n)
  {
    NegativeRendering(n, rest);
    ParseIntMinusDigits(-n, rest);
  }

  /**
   * Parsing what `${n}` renders gives `n` back, and so does parsing it with a
   * suffix that does not continue the number (as `"7abc"` parses to 7).
   */
  lemma ParseIntToDecimal(n: int, rest: string)
    requires rest == [] || !IsDigit(rest[0], 10)
    requires n == 0 && rest != [] ==> rest[0] != 'x' && rest[0] != 'X'
    ensures ParseInt(ToDecimal(n) + rest) == Some(n)
  {
    if n < 0 {
      ParseIntNegative(n, rest);
    } else {
      ParseIntNonNegative(n, rest);
    }
  }

  /** The plain case: a rendered integer parses back to itself. */
  lemma ParseIntRoundTrip(n: int)
    ensures ParseInt(ToDecimal(n)) == Some(n)
  {
    ParseIntToDecimal(n, []);
    assert ToDecimal(n) + [] == ToDecimal(n);
  }
}
