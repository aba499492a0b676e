/** Natural numbers in decimal notation, as string templates render them. */
module Decimals {
  function Digit(d: nat): char
    requires d < 10
  {
    "0123456789"[d]
  }

  function Decimal(n: nat): (s: string)
    ensures |s| >= 1 && (n >= 10 ==> |s| >= 2)
  {
    if n < 10 then [Digit(n)] else Decimal(n / 10) + [Digit(n % 10)]
  }

  lemma {:induction false} DecimalInjective(m: nat, n: nat)
    requires Decimal(m) == Decimal(n)
    ensures m == n
  {
    if m >= 10 && n >= 10 {
      var s, t := Decimal(m), Decimal(n);
      assert s[..|s| - 1] == Decimal(m / 10) && t[..|t| - 1] == Decimal(n / 10);
      assert s[|s| - 1] == Digit(m % 10) && t[|t| - 1] == Digit(n % 10);
      DecimalInjective(m / 10, n / 10);
    } else if m < 10 && n < 10 {
      assert Decimal(m)[0] == Digit(m) && Decimal(n)[0] == Digit(n);
    }
  }

  /** A digit read as a number, and a text of digits. */
  function ReadDigit(c: char): int {
    c as int - '0' as int
  }

  function ReadNumber(s: string): int {
    if s == [] then 0 else 10 * ReadNumber(s[..|s| - 1]) + ReadDigit(s[|s| - 1])
  }

  /** Written and read back, a number is itself. */
  lemma {:induction false} ReadUndoesDecimal(n: nat)
    ensures ReadNumber(Decimal(n)) == n
  {
    if n >= 10 {
      ReadUndoesDecimal(n / 10);
      var s := Decimal(n);
      assert s[..|s| - 1] == Decimal(n / 10) && s[|s| - 1] == Digit(n % 10);
    } else {
      assert Decimal(n)[..0] == [];
    }
  }
}
