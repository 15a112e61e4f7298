/** Numbers as JavaScript prints and parses them, without its 53-bit rounding. */
module Decimal {
  predicate IsDigit(c: char) {
    '0' <= c <= '9'
  }

  predicate AllDigits(s: string) {
    forall i :: 0 <= i < |s| ==> IsDigit(s[i])
  }

  function Print(n: nat): (s: string)
    ensures s != "" && AllDigits(s)
  {
    var digit := [('0' as int + n % 10) as char];
    if n < 10 then digit else Print(n / 10) + digit
  }

  function Parse(s: string): nat
    requires AllDigits(s)
  {
    if s == "" then 0
    else
      Parse(s[..|s| - 1]) * 10 + (s[|s| - 1] as int - '0' as int)
  }

  lemma {:induction false} ParsePrint(n: nat)
    ensures Parse(Print(n)) == n
  {
    var digit := [('0' as int + n % 10) as char];
    if n < 10 {
      assert digit[..0] == "";
    } else {
      ParsePrint(n / 10);
      assert Print(n)[..|Print(n)| - 1] == Print(n / 10);
    }
  }

  /** The digits. */
  lemma DigitsPrint()
    ensures Print(0) == "0" && Print(1) == "1" && Print(2) == "2" && Print(3) == "3" && Print(4) == "4"
    ensures Print(5) == "5" && Print(6) == "6" && Print(7) == "7" && Print(8) == "8" && Print(9) == "9"
  {
  }

  /** Tens stand before units. */
  lemma TensStandFirst(tens: nat, unit: nat)
    requires tens > 0 && unit < 10
    ensures Print(10 * tens + unit) == Print(tens) + Print(unit)
  {
    var n := 10 * tens + unit;
    assert n / 10 == tens && n % 10 == unit;
  }

  lemma PrintIsInjective(m: nat, n: nat)
    requires Print(m) == Print(n)
    ensures m == n
  {
    ParsePrint(m);
    ParsePrint(n);
  }
}
