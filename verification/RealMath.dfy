/** Arithmetic on reals used by the motion planner. */
module RealMath {

  function Min(a: real, b: real): (r: real) {
    if a <= b then a else b
  }

  function Max(a: real, b: real): (r: real) {
    if a >= b then a else b
  }

  function Abs(a: real): (r: real) {
    if a < 0.0 then -a else a
  }

  /** What the planner relies on from the library's square root. */
  ghost predicate IsSqrt(f: real -> real) {
    forall x: real :: x >= 0.0 ==> f(x) >= 0.0 && f(x) * f(x) == x
  }
}
