/** Decimal numerals as they are printed into keys and event ids, and read back. */
module Numerals {
  import opened Wrappers

  predicate IsDigit(c: char) {
    '0' <= c <= '9'
  }

  predicate IsNumeral(s: string) {
    s != "" && forall i :: 0 <= i < |s| ==> IsDigit(s[i])
  }

  function Decimal(n: nat): (s: string)
    ensures IsNumeral(s)
  {
    if n < 10 then [('0' as int + n) as char] else Decimal(n / 10) + [('0' as int + n % 10) as char]
  }

  function Value(s: string): nat
    requires IsNumeral(s)
  {
    var last := |s| - 1;
    (s[last] as int - '0' as int) + if last == 0 then 0 else 10 * Value(s[..last])
  }

  function Parse(s: string): Option<nat> {
    if IsNumeral(s) then Some(Value(s)) else None
  }

  lemma {:induction false} ValueOfDecimal(n: nat)
    ensures Value(Decimal(n)) == n
  {
    if n >= 10 {
      ValueOfDecimal(n / 10);
      assert Decimal(n)[..|Decimal(n)| - 1] == Decimal(n / 10);
    }
  }

  lemma {:induction false} ParseOfDecimal(n: nat)
    ensures Parse(Decimal(n)) == Some(n)
  {
    ValueOfDecimal(n);
  }
}
