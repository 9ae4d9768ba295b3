/** 32-bit tick counters and the integers they stand for. */
module Clock32 {
  const WRAP: int := 0x1_0000_0000
  const HALF: int := 0x8000_0000

  type u32 = x: int | 0 <= x < WRAP

  function Wrap(x: int): (r: u32) {
    x % WRAP
  }

  /** Unary minus on 32-bit values. */
  function Negate(x: u32): (r: u32) {
    if x == 0 then 0 else WRAP - x
  }

  /** The signed reading of a 32-bit value. */
  function Signed(x: u32): (r: int) {
    if x < HALF then x else x - WRAP
  }

  /** True if the signed 32-bit difference of the two times is negative. */
  predicate TimerIsBefore(time1: u32, time2: u32) {
    Signed(Wrap(time1 - time2)) < 0
  }

  lemma {:induction false} WrapShift(x: int, k: int)
    ensures Wrap(x + k * WRAP) == Wrap(x)
    decreases if k < 0 then -k else k
  {
    if k > 0 {
      WrapShift(x, k - 1);
      assert x + k * WRAP == x + (k - 1) * WRAP + WRAP;
    } else if k < 0 {
      WrapShift(x, k + 1);
      assert x + k * WRAP == x + (k + 1) * WRAP - WRAP;
    }
  }

  /** Wrapping the operands of a sum or difference does not change its wrapped value. */
  lemma WrapCongruent(x: int, y: int)
    ensures Wrap(Wrap(x) + Wrap(y)) == Wrap(x + y)
    ensures Wrap(Wrap(x) - Wrap(y)) == Wrap(x - y)
    ensures Wrap(Wrap(x)) == Wrap(x)
  {
    var a, b := x / WRAP, y / WRAP;
    WrapShift(Wrap(x) + Wrap(y), a + b);
    WrapShift(Wrap(x) - Wrap(y), a - b);
  }

  lemma NegateWrap(x: int)
    ensures Negate(Wrap(x)) == Wrap(-x)
  {
    var a := x / WRAP;
    assert x == a * WRAP + Wrap(x);
    WrapShift(-(Wrap(x) as int), -a);
    assert -x == -(Wrap(x) as int) + -a * WRAP;
  }

  lemma WrapStep(x: int, step: int)
    ensures Wrap(Wrap(x) + step) == Wrap(x + step)
  {
    WrapShift(Wrap(x) + step, x / WRAP);
  }

  lemma SignedExact(d: int)
    requires -HALF <= d < HALF
    ensures Signed(Wrap(d)) == d
  {
  }

  lemma NotBeforeItself(x: u32)
    ensures !TimerIsBefore(x, x)
  {
  }

  /** On times less than 2^31 ticks apart the comparison is the order of the real times. */
  lemma BeforeIsLess(x: int, y: int)
    requires -HALF <= x - y < HALF
    ensures TimerIsBefore(Wrap(x), Wrap(y)) <==> x < y
  {
    WrapCongruent(x, y);
    SignedExact(x - y);
  }
}
