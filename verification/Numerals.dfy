/** Decimal numerals, as ports, user ids and record ids are written. */
module Numerals {
  import opened Cluster

  function Digit(c: char): Option<nat> {
    if '0' <= c <= '9' then Some((c - '0') as nat) else None
  }

  /** The number a numeral stands for. */
  function Decimal(s: string): Option<nat>
    decreases |s|
  {
    if s == "" then None
    else
      var d := Digit(s[|s| - 1]);
      if |s| == 1 then d
      else
        var rest := Decimal(s[..|s| - 1]);
        if d.None? || rest.None? then None else Some(10 * rest.value + d.value)
  }

  /** The numeral of a number. */
  function Digits(n: nat): string {
    if n < 10 then [('0' as int + n) as char] else Digits(n / 10) + [('0' as int + n % 10) as char]
  }

  /** Reading a written number gives it back, so no two numbers are written alike. */
  lemma {:induction false} WrittenIsRead(n: nat)
    ensures Decimal(Digits(n)) == Some(n)
  {
    var s := Digits(n);
    if n >= 10 {
      WrittenIsRead(n / 10);
      assert s[..|s| - 1] == Digits(n / 10);
      assert Digit(s[|s| - 1]) == Some(n % 10);
    }
  }
}
