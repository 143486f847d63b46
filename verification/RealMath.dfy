/** Arithmetic over the reals shared by the motion modules. */
module RealMath {

  function Min(a: real, b: real): real {
    if a < b then a else b
  }

  function Max(a: real, b: real): real {
    if a < b then b else a
  }

  function Abs(a: real): real {
    if a < 0.0 then -a else a
  }

  /** The property of `math.sqrt` that the planner relies on; the root itself comes from outside. */
  ghost predicate IsSqrt(sqrt: real -> real) {
    forall x: real :: 0.0 <= x ==> 0.0 <= sqrt(x) && sqrt(x) * sqrt(x) == x
  }
}
