/** The dense vector primitives of the numeric backend (`doSaxpy`,
    `doSscal`) on the host, in exact real arithmetic.  Rounding is not
    modelled. */
module Blas {

  /** y := alpha*x + y */
  function Saxpy(alpha: real, x: seq<real>, y: seq<real>): (r: seq<real>)
    requires |x| == |y|
    ensures |r| == |y|
  {
    seq(|y|, k requires 0 <= k < |y| => alpha * x[k] + y[k])
  }

  /** y := alpha*y */
  function Sscal(alpha: real, y: seq<real>): (r: seq<real>)
    ensures |r| == |y|
  {
    seq(|y|, k requires 0 <= k < |y| => alpha * y[k])
  }
}
