/** The two conversions the library takes from Go's strconv package:
    Itoa (an integer in decimal) and FormatBool ("true" / "false"),
    each with a parser beside it that undoes it. */
module Strconv {

  import opened Wrappers

  predicate IsDigit(c: char) {
    '0' <= c <= '9'
  }

  predicate AllDigits(s: string) {
    forall i :: 0 <= i < |s| ==> IsDigit(s[i])
  }

  function DigitChar(d: nat): (c: char)
    requires d < 10
    ensures IsDigit(c)
  {
    ('0' as int + d) as char
  }

  function DigitValue(c: char): (d: nat)
    requires IsDigit(c)
    ensures d < 10 && DigitChar(d) == c
  {
    c as int - '0' as int
  }

  /** The decimal digits of n, most significant first. */
  function Digits(n: nat): (s: string)
    ensures |s| >= 1 && AllDigits(s)
    ensures s[0] == '0' ==> n == 0
    ensures n < 10 <==> |s| == 1
  {
    if n < 10 then [DigitChar(n)] else Digits(n / 10) + [DigitChar(n % 10)]
  }

  /** strconv.Itoa: the decimal form of n, with a leading '-' when n is negative. */
  function Itoa(n: int): string {
    if n < 0 then "-" + Digits(-n) else Digits(n)
  }

  /** strconv.FormatBool. */
  function FormatBool(b: bool): string {
    if b then "true" else "false"
  }

  /** The value of a non-empty run of decimal digits. */
  function ParseDigits(s: string): nat
    requires |s| >= 1 && AllDigits(s)
  {
    if |s| == 1 then DigitValue(s[0])
    else ParseDigits(s[..|s| - 1]) * 10 + DigitValue(s[|s| - 1])
  }

  /** Reads back what Itoa writes: an optional '-' followed by digits. */
  function ParseDecimal(s: string): Option<int> {
    if |s| >= 2 && s[0] == '-' && AllDigits(s[1..]) then Some(0 - ParseDigits(s[1..]) as int)
    else if |s| >= 1 && AllDigits(s) then Some(ParseDigits(s))
    else None
  }

  /** Reads back what FormatBool writes. */
  function ParseBool(s: string): Option<bool> {
    if s == "true" then Some(true) else if s == "false" then Some(false) else None
  }

  lemma {:induction false} ParseDigitsOfDigits(n: nat)
    ensures ParseDigits(Digits(n)) == n
  {
    if n >= 10 {
      var s := Digits(n);
      assert s[..|s| - 1] == Digits(n / 10);
      ParseDigitsOfDigits(n / 10);
    }
  }

  lemma ParseUnsigned(d: string)
    requires |d| >= 1 && AllDigits(d)
    ensures ParseDecimal(d) == Some(ParseDigits(d) as int)
  {
    assert IsDigit(d[0]);
  }

  lemma ParseNegative(d: string)
    requires |d| >= 1 && AllDigits(d)
    ensures ParseDecimal("-" + d) == Some(0 - ParseDigits(d) as int)
  {
    assert ("-" + d)[1..] == d;
  }

  /** Itoa loses nothing: its output parses back to the integer it came from. */
  lemma ItoaRoundTrip(n: int)
    ensures ParseDecimal(Itoa(n)) == Some(n)
  {
    if n < 0 {
      var d := Digits(-n);
      assert Itoa(n) == "-" + d;
      ParseNegative(d);
      ParseDigitsOfDigits(-n);
      assert ParseDigits(d) as int == -n;
    } else {
      var d := Digits(n);
      assert Itoa(n) == d;
      ParseUnsigned(d);
      ParseDigitsOfDigits(n);
    }
  }

  /** Two different integers never share a decimal form. */
  lemma ItoaInjective(a: int, b: int)
    ensures Itoa(a) == Itoa(b) <==> a == b
  {
    ItoaRoundTrip(a);
    ItoaRoundTrip(b);
  }

  lemma FormatBoolRoundTrip(b: bool)
    ensures ParseBool(FormatBool(b)) == Some(b)
  {
  }
}
