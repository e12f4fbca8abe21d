/**
 strconv.FormatUint and strconv.ParseUint in base 10, and the fact that they undo each other.
 */
module Decimal {

  const MAX_UINT64: nat := 0xFFFF_FFFF_FFFF_FFFF

  predicate IsDigit(c: char) { '0' <= c <= '9' }

  function DigitOf(n: nat): (c: char)
    requires n < 10
    ensures IsDigit(c) && c as int - '0' as int == n
  {
    '0' + n as char
  }

  function Print(n: nat): (s: string)
    ensures |s| > 0 && forall i :: 0 <= i < |s| ==> IsDigit(s[i])
  {
    if n < 10 then [DigitOf(n)] else Print(n / 10) + [DigitOf(n % 10)]
  }

  /** The number a string of digits stands for. */
  function Value(s: string): nat
    requires forall i :: 0 <= i < |s| ==> IsDigit(s[i])
  {
    if |s| == 0 then 0
    else
      assert IsDigit(s[|s| - 1]);
      10 * Value(s[..|s| - 1]) + (s[|s| - 1] as int - '0' as int)
  }

  /**
   The value strconv.ParseUint(s, 10, 64) returns when its error is ignored: zero on a syntax
   error, the largest 64-bit value when the number is out of range.
   */
  function Parse(s: string): nat {
    if |s| == 0 || exists i | 0 <= i < |s| :: !IsDigit(s[i]) then 0
    else if Value(s) > MAX_UINT64 then MAX_UINT64
    else Value(s)
  }

  lemma {:induction false} ValueOfPrint(n: nat)
    ensures Value(Print(n)) == n
  {
    if n < 10 {
      assert Print(n)[..0] == [];
    } else {
      ValueOfPrint(n / 10);
      assert Print(n)[..|Print(n)| - 1] == Print(n / 10);
    }
  }

  lemma ParseOfPrint(n: nat)
    requires n <= MAX_UINT64
    ensures Parse(Print(n)) == n
  {
    ValueOfPrint(n);
  }

  lemma PrintInjective(m: nat, n: nat)
    requires Print(m) == Print(n)
    ensures m == n
  {
    ValueOfPrint(m);
    ValueOfPrint(n);
  }

  /** The digits are the usual ones, the highest first. */
  lemma PrintTen()
    ensures Print(7) == "7" && Print(10) == "10" && Print(123) == "123"
  {
  }
}
