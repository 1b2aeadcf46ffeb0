/**
 * Decimal rendering of integers, as Go's `fmt` prints an `int` under the `%d` verb:
 * an optional minus sign followed by the digits, with no superfluous leading zero.
 * `Parse` reads such a numeral back; the two are proved to be inverse bijections.
 */
module Decimal {

  predicate IsDigit(c: char) {
    '0' <= c <= '9'
  }

  predicate AllDigits(s: string) {
    forall i :: 0 <= i < |s| ==> IsDigit(s[i])
  }

  /** The numerals `%d` prints for non-negative integers: "0", or digits not starting with '0'. */
  predicate IsNaturalNumeral(s: string) {
    |s| > 0 && AllDigits(s) && (s[0] == '0' ==> |s| == 1)
  }

  /** The numerals `%d` prints for any integer; "-0" is not one of them. */
  predicate IsNumeral(s: string) {
    IsNaturalNumeral(s) || (|s| > 1 && s[0] == '-' && IsNaturalNumeral(s[1..]) && s[1] != '0')
  }

  function DigitChar(d: nat): (c: char)
    requires d < 10
    ensures IsDigit(c)
  {
    ('0' as int + d) as char
  }

  function DigitValue(c: char): (d: nat)
    requires IsDigit(c)
    ensures d < 10
    ensures DigitChar(d) == c
  {
    c as int - '0' as int
  }

  /** The digits of `n`, most significant first. */
  function Natural(n: nat): (s: string)
    ensures IsNaturalNumeral(s)
    ensures s[0] == '0' <==> n == 0
  {
    if n < 10 then [DigitChar(n)] else Natural(n / 10) + [DigitChar(n % 10)]
  }

  /** `fmt.Sprintf("%d", n)`. */
  function Format(n: int): (s: string)
    ensures IsNumeral(s)
    ensures s[0] == '-' <==> n < 0
  {
    if n < 0 then "-" + Natural(-n) else Natural(n)
  }

  /** The value of a run of decimal digits. */
  function ParseNatural(s: string): nat
    requires AllDigits(s)
  {
    if s == [] then 0 else ParseNatural(s[..|s| - 1]) * 10 + DigitValue(s[|s| - 1])
  }

  /** The integer a numeral denotes. */
  function Parse(s: string): int
    requires IsNumeral(s)
  {
    if s[0] == '-' then -(ParseNatural(s[1..]) as int) else ParseNatural(s)
  }

  lemma {:induction false} ParseNaturalOfNatural(n: nat)
    ensures ParseNatural(Natural(n)) == n
  {
    if n >= 10 {
      var s := Natural(n);
      assert s[..|s| - 1] == Natural(n / 10);
      ParseNaturalOfNatural(n / 10);
    }
  }

  /** Reading back what `%d` printed gives the number that was printed. */
  lemma ParseFormat(n: int)
    ensures Parse(Format(n)) == n
  {
    if n < 0 {
      assert Format(n)[1..] == Natural(-n);
      ParseNaturalOfNatural(-n);
    } else {
      ParseNaturalOfNatural(n);
    }
  }

  /** Digits denoting zero are all '0'. */
  lemma {:induction false} ZeroDigits(s: string)
    requires AllDigits(s) && |s| > 0 && ParseNatural(s) == 0
    ensures s[0] == '0'
  {
    if |s| > 1 {
      assert s[..|s| - 1][0] == s[0];
      ZeroDigits(s[..|s| - 1]);
    }
  }

  lemma {:induction false} NaturalOfParseNatural(s: string)
    requires IsNaturalNumeral(s)
    ensures Natural(ParseNatural(s)) == s
  {
    if |s| > 1 {
      var t := s[..|s| - 1];
      assert t[0] == s[0];
      if ParseNatural(t) == 0 {
        ZeroDigits(t);
      }
      NaturalOfParseNatural(t);
      assert s == t + [s[|s| - 1]];
    }
  }

  /** Every numeral is what `%d` prints for the number it denotes. */
  lemma FormatParse(s: string)
    requires IsNumeral(s)
    ensures Format(Parse(s)) == s
  {
    if s[0] == '-' {
      var t := s[1..];
      if ParseNatural(t) == 0 {
        ZeroDigits(t);
      }
      NaturalOfParseNatural(t);
      assert s == "-" + t;
    } else {
      NaturalOfParseNatural(s);
    }
  }

  /** Distinct integers print differently. */
  lemma FormatInjective(a: int, b: int)
    requires Format(a) == Format(b)
    ensures a == b
  {
    ParseFormat(a);
    ParseFormat(b);
  }
}
