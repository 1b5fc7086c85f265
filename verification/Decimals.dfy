/** Decimal numbers as text. */
module Decimals {
  predicate AllDigits(s: string) { forall i :: 0 <= i < |s| ==> '0' <= s[i] <= '9' }

  function Val(s: string): nat
    requires AllDigits(s)
  {
    if s == "" then 0 else 10 * Val(s[..|s| - 1]) + (s[|s| - 1] as int - '0' as int)
  }

  function Decimal(n: nat): (s: string)
    ensures AllDigits(s) && s != "" && Val(s) == n
  {
    if n < 10 then
      var s := ['0' + n as char];
      assert s[..0] == "";
      s
    else
      var s := Decimal(n / 10) + ['0' + (n % 10) as char];
      assert s[..|s| - 1] == Decimal(n / 10);
      s
  }

  lemma {:induction false} NoLeadingZero(n: nat)
    requires n > 0
    ensures Decimal(n)[0] != '0'
  {
    if n >= 10 { NoLeadingZero(n / 10); }
  }

  function PowerOfTen(n: nat): nat { if n == 0 then 1 else 10 * PowerOfTen(n - 1) }

  /** The digits stand for 0 to 9, and each place is worth ten times the next one. */
  lemma {:induction false} ValIsPositional(a: string, b: string)
    requires AllDigits(a) && AllDigits(b)
    ensures AllDigits(a + b) && Val(a + b) == Val(a) * PowerOfTen(|b|) + Val(b)
  {
    if b == "" {
      assert a + b == a;
    } else {
      var rest, last := b[..|b| - 1], b[|b| - 1];
      assert (a + b)[..|a + b| - 1] == a + rest && (a + b)[|a + b| - 1] == last;
      ValIsPositional(a, rest);
      Tenfold(Val(a), PowerOfTen(|rest|), Val(rest));
    }
  }

  lemma Tenfold(a: nat, p: nat, b: nat)
    ensures 10 * (a * p + b) == a * (10 * p) + 10 * b
  {
  }

  lemma DigitsAre(d: char)
    requires '0' <= d <= '9'
    ensures Val([d]) == d as int - '0' as int && '0' as int == 48
  {
    assert [d][..0] == "";
  }
}
