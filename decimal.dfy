/** Decimal text for natural numbers, as produced by JavaScript's number to
    string conversion and `padStart(2, '0')`, together with the reading back
    that shows no information is lost. */
module Decimal {

  predicate IsDigit(c: char) {
    '0' <= c <= '9'
  }

  predicate AllDigits(s: string) {
    forall i :: 0 <= i < |s| ==> IsDigit(s[i])
  }

  function DigitChar(d: nat): (c: char)
    requires d < 10
    ensures IsDigit(c)
  {
    ('0' as int + d) as char
  }

  function DigitValue(c: char): (d: nat)
    requires IsDigit(c)
    ensures d < 10
  {
    c as int - '0' as int
  }

  /** The shortest decimal spelling of `n` (no sign, no leading zero). */
  function DecimalOf(n: nat): (s: string)
    ensures 1 <= |s| && AllDigits(s)
    ensures |s| > 1 ==> s[0] != '0'
    ensures n < 10 <==> |s| == 1
    decreases n
  {
    if n < 10 then [DigitChar(n)] else DecimalOf(n / 10) + [DigitChar(n % 10)]
  }

  /** The number a string of digits denotes (leading zeros allowed). */
  function ValueOf(s: string): nat
    requires AllDigits(s)
  {
    if s == [] then 0 else ValueOf(s[..|s| - 1]) * 10 + DigitValue(s[|s| - 1])
  }

  /** Reading the decimal spelling back gives the number. */
  lemma {:induction false} ValueOfDecimalOf(n: nat)
    ensures ValueOf(DecimalOf(n)) == n
  {
    if n >= 10 {
      var s := DecimalOf(n);
      assert s[..|s| - 1] == DecimalOf(n / 10);
      ValueOfDecimalOf(n / 10);
    }
  }

  /** A leading zero does not change the value. */
  lemma {:induction false} ValueOfLeadingZero(s: string)
    requires AllDigits(s)
    ensures AllDigits("0" + s) && ValueOf("0" + s) == ValueOf(s)
  {
    if s != [] {
      var t := "0" + s;
      assert t[..|t| - 1] == "0" + s[..|s| - 1];
      ValueOfLeadingZero(s[..|s| - 1]);
    }
  }

  /** `s.padStart(2, '0')`: zeros are prepended until the string has two
      characters; a longer string is left alone. */
  function PadStart2(s: string): (r: string)
    ensures |s| >= 2 ==> r == s
    ensures |s| < 2 ==> |r| == 2 && r[2 - |s|..] == s && forall i :: 0 <= i < 2 - |s| ==> r[i] == '0'
  {
    if |s| >= 2 then s else if |s| == 1 then "0" + s else "00"
  }

  /** The two-digit spelling of a number below 100. */
  lemma TwoDigits(n: nat)
    requires n < 100
    ensures var r := PadStart2(DecimalOf(n));
      |r| == 2 && AllDigits(r) && ValueOf(r) == n
  {
    ValueOfDecimalOf(n);
    if n < 10 {
      ValueOfLeadingZero(DecimalOf(n));
    } else {
      assert DecimalOf(n / 10) == [DigitChar(n / 10)];
    }
  }
}
