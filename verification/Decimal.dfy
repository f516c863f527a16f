/** Printing naturals in decimal and reading them back, as `%v`, `strconv.Itoa` and `strconv.ParseInt` do. */
module Decimal {

  function Digit(d: nat): char
    requires d < 10
  {
    ('0' as int + d) as char
  }

  predicate IsDigit(c: char) {
    '0' <= c <= '9'
  }

  predicate AllDigits(s: string) {
    forall i :: 0 <= i < |s| ==> IsDigit(s[i])
  }

  function Print(n: nat): string {
    if n < 10 then [Digit(n)] else Print(n / 10) + [Digit(n % 10)]
  }

  function Parse(s: string): nat
    requires AllDigits(s)
  {
    if s == [] then 0 else 10 * Parse(s[..|s| - 1]) + (s[|s| - 1] as int - '0' as int)
  }

  lemma {:induction false} PrintParse(n: nat)
    ensures Print(n) != [] && AllDigits(Print(n)) && Parse(Print(n)) == n
  {
    if n >= 10 {
      PrintParse(n / 10);
      assert Print(n)[..|Print(n)| - 1] == Print(n / 10);
    }
  }

  lemma PrintInjective(m: nat, n: nat)
    requires Print(m) == Print(n)
    ensures m == n
  {
    PrintParse(m);
    PrintParse(n);
  }

  lemma PrintLength(n: nat)
    ensures n < 10 ==> |Print(n)| == 1
    ensures 10 <= n < 100 ==> |Print(n)| == 2
    ensures n >= 100 ==> |Print(n)| >= 3
  {
    if n >= 100 {
      assert |Print(n / 10 / 10)| >= 1 by { PrintParse(n / 10 / 10); }
    }
  }
}
