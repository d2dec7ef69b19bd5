/**
 * The C library string behaviour the shim relies on: bounded copies
 * (strncpy/snprintf into fixed buffers), the NUL terminator, isspace in the
 * C locale, atoi, and decimal formatting of an unsigned value (%zu).
 */
module CStrings {

  /** The characters a C string keeps: everything before the first NUL. */
  function CStr(s: string): (r: string)
    ensures r <= s
    ensures '\0' !in r
    ensures |r| < |s| ==> s[|r|] == '\0'
  {
    if |s| == 0 || s[0] == '\0' then "" else [s[0]] + CStr(s[1..])
  }

  /** What a copy into a buffer with room for n characters keeps of s. */
  function Truncate(s: string, n: nat): (r: string)
    ensures r <= s
    ensures |r| <= n
    ensures |s| <= n ==> r == s
    ensures |s| > n ==> |r| == n
  {
    if |s| <= n then s else s[..n]
  }

  /** isspace() in the C locale: space, \t, \n, \v, \f and \r. */
  predicate IsSpace(c: char) {
    c == ' ' || ('\t' <= c <= '\r')
  }

  predicate IsDigit(c: char) {
    '0' <= c <= '9'
  }

  predicate AllDigits(s: string) {
    forall i :: 0 <= i < |s| ==> IsDigit(s[i])
  }

  /** The input after the leading white space a scanf directive or atoi skips. */
  function SkipSpaces(s: string): (r: string)
    ensures |r| <= |s| && r == s[|s| - |r|..]
    ensures forall i :: 0 <= i < |s| - |r| ==> IsSpace(s[i])
    ensures |r| > 0 ==> !IsSpace(r[0])
  {
    if |s| > 0 && IsSpace(s[0]) then SkipSpaces(s[1..]) else s
  }

  /** One leading white-space character is skipped... */
  lemma SkipSpacesStep(s: string)
    requires |s| > 0 && IsSpace(s[0])
    ensures SkipSpaces(s) == SkipSpaces(s[1..])
  {
  }

  /** ...and skipping stops at the first other character. */
  lemma SkipSpacesStop(s: string)
    requires |s| > 0 && !IsSpace(s[0])
    ensures SkipSpaces(s) == s
  {
  }

  /** The longest prefix of s made of decimal digits. */
  function DigitPrefix(s: string): (r: string)
    ensures r <= s && AllDigits(r)
    ensures |r| < |s| ==> !IsDigit(s[|r|])
  {
    if |s| == 0 || !IsDigit(s[0]) then "" else [s[0]] + DigitPrefix(s[1..])
  }

  function DigitValue(c: char): nat
    requires IsDigit(c)
  {
    (c as int) - ('0' as int)
  }

  /** The value of a string of decimal digits, read most significant first. */
  function DigitsValue(ds: string): nat
    requires AllDigits(ds)
  {
    if |ds| == 0 then 0 else DigitsValue(ds[..|ds| - 1]) * 10 + DigitValue(ds[|ds| - 1])
  }

  /**
   * atoi: optional white space, an optional sign, then the longest run of
   * digits; 0 when there are no digits. Overflow (undefined in C) is not
   * modelled: the value is an unbounded integer. The value is negative only
   * after a minus sign.
   */
  function Atoi(s: string): (r: int)
    ensures r < 0 ==> |SkipSpaces(s)| > 0 && SkipSpaces(s)[0] == '-'
  {
    var t := SkipSpaces(s);
    if |t| > 0 && t[0] == '-' then -(DigitsValue(DigitPrefix(t[1..])) as int)
    else if |t| > 0 && t[0] == '+' then DigitsValue(DigitPrefix(t[1..]))
    else DigitsValue(DigitPrefix(t))
  }

  function DigitChar(d: nat): (c: char)
    requires d < 10
    ensures IsDigit(c) && DigitValue(c) == d
  {
    ('0' as int + d) as char
  }

  /** The decimal representation of n, as printf's %zu writes it. */
  function Decimal(n: nat): (r: string)
    ensures |r| > 0 && AllDigits(r)
  {
    if n < 10 then [DigitChar(n)] else Decimal(n / 10) + [DigitChar(n % 10)]
  }

  lemma {:induction false} DecimalValue(n: nat)
    ensures DigitsValue(Decimal(n)) == n
  {
    if n >= 10 {
      var r := Decimal(n);
      assert r[..|r| - 1] == Decimal(n / 10);
      DecimalValue(n / 10);
    }
  }

  lemma {:induction false} DigitPrefixOfDigits(s: string)
    requires AllDigits(s)
    ensures DigitPrefix(s) == s
  {
    if |s| > 0 {
      DigitPrefixOfDigits(s[1..]);
    }
  }

  /** atoi of a non-empty run of digits, with or without a minus sign. */
  lemma AtoiOfDigits(s: string)
    requires |s| > 0 && AllDigits(s)
    ensures Atoi(s) == DigitsValue(s)
    ensures Atoi("-" + s) == -(DigitsValue(s) as int)
  {
    DigitPrefixOfDigits(s);
    assert IsDigit(s[0]) && !IsSpace(s[0]);
    assert SkipSpaces(s) == s;
    var m := "-" + s;
    assert m[0] == '-' && !IsSpace(m[0]) && m[1..] == s;
    assert SkipSpaces(m) == m;
  }

  /** atoi reads back what %zu writes. */
  lemma AtoiDecimal(n: nat)
    ensures Atoi(Decimal(n)) == n
    ensures Atoi("-" + Decimal(n)) == -(n as int)
  {
    AtoiOfDigits(Decimal(n));
    DecimalValue(n);
  }

  /** A value with no digit after the white space and the sign makes atoi return 0. */
  lemma AtoiWithoutDigits(s: string)
    requires var t := SkipSpaces(s);
             var u := if |t| > 0 && (t[0] == '-' || t[0] == '+') then t[1..] else t;
             |u| == 0 || !IsDigit(u[0])
    ensures Atoi(s) == 0
  {
  }
}
