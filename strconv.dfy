/** Go's decimal formatting of integers: `strconv.Itoa` and the `%d` verb. */
module Strconv {

  const Digits: string := "0123456789"

  /** The decimal digits of a natural number, most significant first, without leading zeros. */
  function NatDigits(n: nat): (r: string)
    ensures |r| >= 1
    ensures n < 10 <==> |r| == 1
    ensures forall i :: 0 <= i < |r| ==> r[i] in Digits
    ensures r[|r| - 1] == Digits[n % 10]
    decreases n
  {
    if n < 10 then [Digits[n]] else NatDigits(n / 10) + [Digits[n % 10]]
  }

  /** `strconv.Itoa(n)`, which is also what `fmt.Sprintf("%d", n)` prints. */
  function Itoa(n: int): (r: string)
    ensures |r| >= 1
    ensures n >= 0 ==> r == NatDigits(n)
    ensures n < 0 ==> r[0] == '-' && r[1..] == NatDigits(-n)
  {
    if n >= 0 then NatDigits(n) else "-" + NatDigits(-n)
  }

  lemma DigitAt(x: nat, y: nat)
    requires x < 10 && y < 10 && Digits[x] == Digits[y]
    ensures x == y
  {
  }

  /** Different natural numbers print differently, so names built from them never collide. */
  lemma {:induction false} NatDigitsInjective(a: nat, b: nat)
    requires NatDigits(a) == NatDigits(b)
    ensures a == b
    decreases a
  {
    var s := NatDigits(a);
    DigitAt(a % 10, b % 10);
    if a >= 10 {
      assert b >= 10;
      assert NatDigits(a / 10) == s[..|s| - 1] == NatDigits(b / 10);
      NatDigitsInjective(a / 10, b / 10);
    }
  }

  /** `Itoa` is injective on all integers. */
  lemma ItoaInjective(a: int, b: int)
    requires Itoa(a) == Itoa(b)
    ensures a == b
  {
    if a >= 0 && b >= 0 {
      NatDigitsInjective(a, b);
    } else if a < 0 && b < 0 {
      NatDigitsInjective(-a, -b);
    }
  }
}
