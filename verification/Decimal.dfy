/** Decimal printing of line numbers. */
module Decimal {
  function Print(n: nat): string {
    if n < 10 then [Digit(n)] else Print(n / 10) + [Digit(n % 10)]
  }

  function Digit(d: nat): char
    requires d < 10
  {
    "0123456789"[d]
  }

  lemma DigitsDiffer(a: nat, b: nat)
    requires a < 10 && b < 10 && Digit(a) == Digit(b)
    ensures a == b
  {
  }

  lemma {:induction false} PrintInjective(a: nat, b: nat)
    requires Print(a) == Print(b)
    ensures a == b
  {
    PrintNonEmpty(a / 10);
    PrintNonEmpty(b / 10);
    var s := Print(a);
    if a < 10 && b < 10 {
      assert s[0] == Digit(a) == Digit(b);
      DigitsDiffer(a, b);
    } else if a >= 10 && b >= 10 {
      assert s[..|s| - 1] == Print(a / 10) == Print(b / 10);
      assert s[|s| - 1] == Digit(a % 10) == Digit(b % 10);
      DigitsDiffer(a % 10, b % 10);
      PrintInjective(a / 10, b / 10);
    } else {
      assert |Print(a)| == |Print(b)|;
    }
  }

  lemma PrintNonEmpty(n: nat)
    ensures Print(n) != []
  {
  }

  lemma {:induction false} PrintHasNoColon(n: nat)
    ensures ':' !in Print(n)
  {
    if n >= 10 {
      PrintHasNoColon(n / 10);
    }
  }

  /** What a string of digits reads as. */
  function Value(s: string): int {
    if s == "" then 0 else 10 * Value(s[..|s| - 1]) + (s[|s| - 1] as int - '0' as int)
  }

  /** Printing is the inverse of reading, without leading zeros. */
  lemma {:induction false} PrintReads(n: nat)
    ensures Value(Print(n)) == n && (Print(n)[0] == '0' ==> n == 0)
    ensures forall i | 0 <= i < |Print(n)| :: '0' <= Print(n)[i] <= '9'
  {
    DigitReads(n % 10);
    if n >= 10 {
      PrintReads(n / 10);
      assert Print(n)[..|Print(n)| - 1] == Print(n / 10);
    } else {
      assert Print(n)[..0] == "";
    }
  }

  lemma DigitReads(d: nat)
    requires d < 10
    ensures Digit(d) as int - '0' as int == d
  {
  }
}
