/**
 * Go's `int64`: a 64-bit two's-complement integer whose addition wraps
 * around silently on overflow.
 */
module Int64 {

  const Min: int := -0x8000_0000_0000_0000
  const Max: int := 0x7fff_ffff_ffff_ffff
  const Modulus: int := 0x1_0000_0000_0000_0000

  type int64 = x: int | Min <= x <= Max

  /** The int64 that an unbounded integer truncates to. */
  function Wrap(x: int): (r: int64)
    ensures Min <= x <= Max ==> r == x
  {
    (x - Min) % Modulus + Min
  }

  /** Truncation only ever moves a value by a multiple of 2^64. */
  lemma WrapMovesByMultiple(x: int)
    ensures (Wrap(x) - x) % Modulus == 0
  {
  }

  /** Go's `a + b` on int64 operands. */
  function Add(a: int64, b: int64): (r: int64)
    ensures Min <= a + b <= Max ==> r == a + b
    ensures a + b > Max ==> r == a + b - Modulus
    ensures a + b < Min ==> r == a + b + Modulus
  {
    Wrap(a + b)
  }

  /** Two integers that differ by a multiple of 2^64 truncate alike. */
  lemma WrapCongruent(x: int, y: int)
    requires (x - y) % Modulus == 0
    ensures Wrap(x) == Wrap(y)
  {
    var rx, ry := Wrap(x), Wrap(y);
    WrapMovesByMultiple(x);
    WrapMovesByMultiple(y);
    assert (rx - ry) % Modulus == 0 by {
      assert rx - ry == (rx - x) + (x - y) + (y - ry);
    }
  }

  /** Truncating an intermediate sum does not change the final result. */
  lemma WrapAdd(a: int, b: int)
    ensures Wrap(Wrap(a) + b) == Wrap(a + b)
  {
    WrapCongruent(Wrap(a) + b, a + b);
  }

  /** A wrapped addition followed by more addition truncates like the exact sum. */
  lemma AddThenWrap(a: int64, b: int64, t: int)
    ensures Wrap(Add(a, b) + t) == Wrap(a + b + t)
  {
    WrapAdd(a + b, t);
  }

  /** Go's wrapping addition is commutative and associative. */
  lemma AddCommutesAndAssociates(a: int64, b: int64, c: int64)
    ensures Add(a, b) == Add(b, a)
    ensures Add(Add(a, b), c) == Add(a, Add(b, c))
  {
    AddThenWrap(a, b, c);
    AddThenWrap(b, c, a);
  }
}
