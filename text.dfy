/**
 * Decimal rendering of integers, as a JavaScript template literal renders an
 * integral number n with |n| < 10^21 (`${375}` is "375", `${-5}` is "-5");
 * larger numbers are printed in exponent notation, which is not modelled.
 */
module Text {

  predicate IsDigit(c: char) {
    '0' <= c <= '9'
  }

  predicate AllDigits(s: string) {
    forall i :: 0 <= i < |s| ==> IsDigit(s[i])
  }

  function DigitChar(d: nat): (c: char)
    requires d < 10
    ensures IsDigit(c) && c as int - '0' as int == d
  {
    (d + '0' as int) as char
  }

  /** The shortest decimal numeral of n. */
  function NatText(n: nat): (s: string)
    ensures |s| >= 1
    decreases n
  {
    if n < 10 then [DigitChar(n)] else NatText(n / 10) + [DigitChar(n % 10)]
  }

  /** The value a string of decimal digits denotes (independent of NatText). */
  function DigitsValue(s: string): nat
    requires AllDigits(s)
  {
    if s == [] then 0
    else DigitsValue(s[..|s| - 1]) * 10 + (s[|s| - 1] as int - '0' as int)
  }

  /** JavaScript's conversion of an integral number to a string. */
  function IntText(i: int): (s: string)
    ensures |s| >= 1
  {
    if i < 0 then "-" + NatText(-i) else NatText(i)
  }

  /** A numeral is made of decimal digits only, with no leading zero. */
  lemma {:induction false} NatTextDigits(n: nat)
    ensures AllDigits(NatText(n))
    ensures |NatText(n)| > 1 ==> NatText(n)[0] != '0'
  {
    if n >= 10 {
      NatTextDigits(n / 10);
    }
  }

  /** The numeral of a three-digit number, digit by digit. */
  lemma NatTextOfThree(n: nat)
    requires 100 <= n <= 999
    ensures NatText(n) == [DigitChar(n / 100), DigitChar(n / 10 % 10), DigitChar(n % 10)]
  {
    assert NatText(n / 10) == [DigitChar(n / 100), DigitChar(n / 10 % 10)];
  }

  /** The numeral of a four-digit number, digit by digit. */
  lemma NatTextOfFour(n: nat)
    requires 1000 <= n <= 9999
    ensures NatText(n)
         == [DigitChar(n / 1000), DigitChar(n / 100 % 10), DigitChar(n / 10 % 10), DigitChar(n % 10)]
  {
    NatTextOfThree(n / 10);
    assert n / 10 / 100 == n / 1000 && n / 10 / 10 % 10 == n / 100 % 10;
  }

  /** A rendering starts with a minus sign exactly for negative numbers. */
  lemma IntTextSign(i: int)
    ensures (IntText(i)[0] == '-') == (i < 0)
  {
    if i >= 0 {
      NatTextDigits(i);
    }
  }

  /** Negative numbers get a minus sign in front of the numeral of their magnitude. */
  lemma IntTextDigits(i: int)
    ensures i >= 0 ==> AllDigits(IntText(i))
    ensures i < 0 ==> AllDigits(IntText(i)[1..])
  {
    if i < 0 {
      NatTextDigits(-i);
      assert IntText(i)[1..] == NatText(-i);
    } else {
      NatTextDigits(i);
    }
  }

  /** Reading back the numeral gives the number: NatText loses nothing. */
  lemma {:induction false} NatTextRoundTrip(n: nat)
    ensures AllDigits(NatText(n)) && DigitsValue(NatText(n)) == n
  {
    NatTextDigits(n);
    if n >= 10 {
      var s := NatText(n);
      NatTextRoundTrip(n / 10);
      NatTextDigits(n / 10);
      assert s[..|s| - 1] == NatText(n / 10);
    }
  }

  lemma NatTextInjective(m: nat, n: nat)
    requires NatText(m) == NatText(n)
    ensures m == n
  {
    NatTextRoundTrip(m);
    NatTextRoundTrip(n);
  }

  /** Distinct integers render as distinct strings. */
  lemma IntTextInjective(i: int, j: int)
    requires IntText(i) == IntText(j)
    ensures i == j
  {
    if i < 0 && j < 0 {
      assert IntText(i)[1..] == NatText(-i);
      assert IntText(j)[1..] == NatText(-j);
      NatTextInjective(-i, -j);
    } else if i >= 0 && j >= 0 {
      NatTextInjective(i, j);
    } else {
      IntTextSign(i);
      IntTextSign(j);
    }
  }
}
