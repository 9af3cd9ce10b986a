/** Decimal numbers as the program prints and reads them. */
module Decimals {
  import Team

  function Decimal(n: nat): string {
    if n < 10 then ["0123456789"[n]] else Decimal(n / 10) + ["0123456789"[n % 10]]
  }

  lemma {:induction false} DecimalDigits(n: nat, k: nat)
    requires k < |Decimal(n)|
    ensures Decimal(n)[k] in "0123456789"
  {
    if n >= 10 && k < |Decimal(n)| - 1 {
      DecimalDigits(n / 10, k);
    }
  }

  lemma DecimalShape(n: nat)
    ensures |Decimal(n)| >= 1 && (|Decimal(n)| == 1 <==> n < 10)
    ensures Decimal(n)[|Decimal(n)| - 1] == "0123456789"[n % 10]
    ensures n >= 10 ==> Decimal(n)[..|Decimal(n)| - 1] == Decimal(n / 10)
  {
    if n >= 10 {
      NonEmptyDecimal(n / 10);
    }
  }

  lemma DigitInjective(a: nat, b: nat)
    requires a < 10 && b < 10 && "0123456789"[a] == "0123456789"[b]
    ensures a == b
  {
  }

  lemma {:induction false} DecimalInjective(a: nat, b: nat)
    requires Decimal(a) == Decimal(b)
    ensures a == b
  {
    DecimalShape(a);
    DecimalShape(b);
    hide Decimal;
    DigitInjective(a % 10, b % 10);
    if a >= 10 {
      DecimalInjective(a / 10, b / 10);
    }
  }

  lemma NonEmptyDecimal(n: nat)
    ensures |Decimal(n)| >= 1
  {
  }

  function DigitValue(c: char): int {
    if '0' <= c <= '9' then c as int - '0' as int else -1
  }

  predicate AllDigits(s: string) {
    forall k :: 0 <= k < |s| ==> '0' <= s[k] <= '9'
  }

  function DigitsValue(s: string): int {
    if s == "" then 0 else 10 * DigitsValue(s[..|s| - 1]) + DigitValue(s[|s| - 1])
  }

  const INT64_LIMIT := 0x8000_0000_0000_0000

  /** An optional sign and digits, within 64 bits; anything else is an error. */
  function Atoi(s: string): Team.Option<int> {
    var signed := s != "" && (s[0] == '-' || s[0] == '+');
    var digits := if signed then s[1..] else s;
    if digits == "" || !AllDigits(digits) then Team.None
    else
      var value := if s[0] == '-' then -DigitsValue(digits) else DigitsValue(digits);
      if -INT64_LIMIT <= value < INT64_LIMIT then Team.Some(value) else Team.None
  }

  lemma {:induction false} DecimalReadsBack(n: nat)
    ensures AllDigits(Decimal(n)) && DigitsValue(Decimal(n)) == n
  {
    DecimalShape(n);
    LastDigit(n % 10);
    if n >= 10 {
      DecimalReadsBack(n / 10);
      hide DigitValue;
      assert Decimal(n) == Decimal(n / 10) + ["0123456789"[n % 10]];
    } else {
      assert Decimal(n)[..0] == "";
    }
  }

  lemma LastDigit(d: nat)
    requires d < 10
    ensures DigitValue("0123456789"[d]) == d && '0' <= "0123456789"[d] <= '9'
  {
  }

  /** Reading a printed number gives it back. */
  lemma AtoiOfDecimal(n: nat)
    requires n < INT64_LIMIT
    ensures Atoi(Decimal(n)) == Team.Some(n)
  {
    DecimalReadsBack(n);
    DecimalShape(n);
    assert '0' <= Decimal(n)[0] <= '9';
    hide Decimal, DigitsValue;
  }
}
