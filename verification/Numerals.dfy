/** Decimal numerals, as the suffixes of rotated logs and of numbered backups use them, printed and read back
    again. */
module Numerals {
  import opened Common

  const USIZE_MAX := 0xFFFF_FFFF_FFFF_FFFF

  function Digit(d: nat): char
    requires d < 10
  {
    "0123456789"[d]
  }

  predicate IsDigit(ch: char) { '0' <= ch <= '9' }

  function DigitValue(ch: char): nat
    requires IsDigit(ch)
  {
    ch as int - '0' as int
  }

  /** `n.to_string()` */
  function Dec(n: nat): string {
    if n < 10 then [Digit(n)] else Dec(n / 10) + [Digit(n % 10)]
  }

  function Value(s: string): nat
    requires forall i :: 0 <= i < |s| ==> IsDigit(s[i])
  {
    if s == "" then 0 else Value(s[..|s| - 1]) * 10 + DigitValue(s[|s| - 1])
  }

  /** `str::parse::<usize>`: one optional plus sign, at least one digit, no overflow. Leading zeros
      are accepted. */
  function ParseUsize(s: string): Option<nat> {
    var ds := if s != "" && s[0] == '+' then s[1..] else s;
    if ds == "" || exists i :: 0 <= i < |ds| && !IsDigit(ds[i]) then None
    else if Value(ds) > USIZE_MAX then None
    else Some(Value(ds))
  }

  lemma {:induction false} DecValue(n: nat)
    ensures Dec(n) != ""
    ensures forall i :: 0 <= i < |Dec(n)| ==> IsDigit(Dec(n)[i])
    ensures Value(Dec(n)) == n
  {
    assert forall d: nat :: d < 10 ==> IsDigit(Digit(d)) && DigitValue(Digit(d)) == d;
    if n < 10 {
      assert [Digit(n)][..0] == "";
    } else {
      DecValue(n / 10);
      assert Dec(n)[..|Dec(n)| - 1] == Dec(n / 10);
    }
  }

  lemma DecInjective(m: nat, n: nat)
    requires Dec(m) == Dec(n)
    ensures m == n
  {
    DecValue(m);
    DecValue(n);
  }

  lemma ParseDec(n: nat)
    ensures ParseUsize(Dec(n)) == if n > USIZE_MAX then None else Some(n)
  {
    DecValue(n);
    assert IsDigit(Dec(n)[0]);
  }
}
