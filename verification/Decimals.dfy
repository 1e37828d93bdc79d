/** Numbers as text: array keys and the ids of questions. */
module Decimals {

  function Digits(n: nat): (s: string)
    ensures |s| > 0
    decreases n
  {
    var last := ['0' + (n % 10) as char];
    if n < 10 then last else Digits(n / 10) + last
  }

  function Value(s: string): nat {
    if s == [] then 0 else 10 * Value(s[..|s| - 1]) + (if '0' <= s[|s| - 1] then s[|s| - 1] as int - '0' as int else 0)
  }

  predicate IsDigit(c: char) {
    '0' <= c <= '9'
  }

  predicate AllDigits(s: string) {
    forall i | 0 <= i < |s| :: IsDigit(s[i])
  }

  /** Printing and reading are inverse, and print only digits. */
  lemma {:induction false} DigitsRead(n: nat)
    ensures Value(Digits(n)) == n && AllDigits(Digits(n))
    decreases n
  {
    var last := ['0' + (n % 10) as char];
    if n >= 10 {
      DigitsRead(n / 10);
      assert (Digits(n / 10) + last)[..|Digits(n / 10)|] == Digits(n / 10);
    } else {
      assert last[..0] == [];
    }
  }
}
