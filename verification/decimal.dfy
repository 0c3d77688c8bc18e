/** Decimal printing of integers, as `strconv` and `fmt` do it, and reading it back. */
module Decimal {
  const DIGITS := "0123456789"

  function Digits(n: nat): (s: string)
    ensures s != ""
    ensures forall i | 0 <= i < |s| :: s[i] in DIGITS
  {
    if n < 10 then [DIGITS[n]] else Digits(n / 10) + [DIGITS[n % 10]]
  }

  function Itoa(n: int): string {
    if n < 0 then "-" + Digits(-n) else Digits(n)
  }

  function Digit(c: char): nat {
    if '0' <= c <= '9' then (c - '0') as nat else 0
  }

  /** The number a string of digits denotes. */
  function Value(s: string): nat {
    if s == "" then 0 else 10 * Value(s[..|s| - 1]) + Digit(s[|s| - 1])
  }

  lemma {:induction false} DigitsDenote(n: nat)
    ensures Value(Digits(n)) == n
  {
    if n < 10 {
      assert Digit(DIGITS[n]) == n;
    } else {
      DigitsDenote(n / 10);
      assert Digits(n)[..|Digits(n)| - 1] == Digits(n / 10);
      assert Digit(DIGITS[n % 10]) == n % 10;
    }
  }

  lemma DigitsAreInjective(a: nat, b: nat)
    requires Digits(a) == Digits(b)
    ensures a == b
  {
    DigitsDenote(a);
    DigitsDenote(b);
  }

  lemma MinusIsNoDigit(n: nat, digits: string)
    ensures "-" + digits != Digits(n)
  {
    assert ("-" + digits)[0] == '-';
    assert Digits(n)[0] in DIGITS;
  }

  lemma SameTail(a: string, b: string)
    requires "-" + a == "-" + b
    ensures a == b
  {
    assert ("-" + a)[1..] == a && ("-" + b)[1..] == b;
  }

  /** Different integers are printed differently. */
  lemma ItoaIsInjective(a: int, b: int)
    requires Itoa(a) == Itoa(b)
    ensures a == b
  {
    if a < 0 && b < 0 {
      SameTail(Digits(-a), Digits(-b));
      DigitsAreInjective(-a, -b);
    } else if a < 0 {
      MinusIsNoDigit(b, Digits(-a));
    } else if b < 0 {
      MinusIsNoDigit(a, Digits(-b));
    } else {
      DigitsAreInjective(a, b);
    }
  }
}
