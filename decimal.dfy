/** Decimal renderings used where the service turns numbers into text: the
    stream key (`Long.toString` of an aggregate id), the ids in error
    messages, and the amount (a scale-2 decimal) in one error message. */
module Decimal {
  import opened Model

  predicate IsDigit(c: char)
  {
    '0' <= c <= '9'
  }

  predicate AllDigits(s: string)
  {
    forall i :: 0 <= i < |s| ==> IsDigit(s[i])
  }

  function DigitChar(d: nat): (c: char)
    requires d < 10
    ensures IsDigit(c)
  {
    (48 + d) as char
  }

  function DigitValue(c: char): (d: nat)
    requires IsDigit(c)
    ensures d < 10
  {
    (c as int) - 48
  }

  /** The shortest decimal numeral of a natural number. */
  function NatDigits(n: nat): (s: string)
    ensures |s| >= 1 && AllDigits(s)
    decreases n
  {
    if n < 10 then [DigitChar(n)] else NatDigits(n / 10) + [DigitChar(n % 10)]
  }

  /** `Long.toString`: a minus sign for negative numbers, then the digits. */
  function DecimalString(n: int): string
  {
    if n < 0 then "-" + NatDigits(-n) else NatDigits(n)
  }

  /** `BigDecimal.toString` of a scale-2 amount held in minor units. */
  function MoneyString(minor: int): string
  {
    var m: nat := if minor < 0 then -minor else minor;
    (if minor < 0 then "-" else "") + NatDigits(m / 100) + "." + [DigitChar(m % 100 / 10), DigitChar(m % 10)]
  }

  /** The value of a string of digits. */
  function DigitsValue(s: string): nat
    requires AllDigits(s)
  {
    if s == [] then 0 else DigitsValue(s[..|s| - 1]) * 10 + DigitValue(s[|s| - 1])
  }

  /** Reads back a numeral as written by `DecimalString`. */
  function ParseDecimal(s: string): Option<int>
  {
    if |s| >= 2 && s[0] == '-' && AllDigits(s[1..]) then Some(0 - DigitsValue(s[1..]) as int)
    else if |s| >= 1 && AllDigits(s) then Some(DigitsValue(s))
    else None
  }

  lemma {:induction false} NatDigitsValue(n: nat)
    ensures DigitsValue(NatDigits(n)) == n
    decreases n
  {
    var s := NatDigits(n);
    if n >= 10 {
      NatDigitsValue(n / 10);
      assert s[..|s| - 1] == NatDigits(n / 10);
      assert DigitValue(s[|s| - 1]) == n % 10;
    }
  }

  /** The decimal rendering of an id determines the id: reading it back gives
      the number that was written. */
  lemma DecimalRoundTrip(n: int)
    ensures ParseDecimal(DecimalString(n)) == Some(n)
  {
    var s := DecimalString(n);
    if n < 0 {
      NatDigitsValue(-n);
      assert s[1..] == NatDigits(-n);
    } else {
      NatDigitsValue(n);
      assert IsDigit(s[0]);
    }
  }

  /** Two ids share a stream key only when they are equal. */
  lemma DecimalStringInjective(m: int, n: int)
    requires DecimalString(m) == DecimalString(n)
    ensures m == n
  {
    DecimalRoundTrip(m);
    DecimalRoundTrip(n);
  }
}
