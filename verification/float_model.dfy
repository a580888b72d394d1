/** Single-precision values as exact reals plus one non-finite value.

    The loss functions divide by `bunch_size` and by the call count, both of
    which may be zero; IEEE arithmetic then yields an infinity or a NaN
    instead of stopping.  `NonFinite` stands for all of those (their sign
    is not modelled) and absorbs every later operation, as they do. */
module FloatModel {

  datatype Float = Finite(v: real) | NonFinite

  function Add(a: Float, b: Float): Float
  {
    if a.Finite? && b.Finite? then Finite(a.v + b.v) else NonFinite
  }

  function Mul(a: Float, b: Float): Float
  {
    if a.Finite? && b.Finite? then Finite(a.v * b.v) else NonFinite
  }

  /** `a / n` for an unsigned count `n`: a division by zero is non-finite. */
  function DivNat(a: Float, n: nat): Float
  {
    if a.Finite? && n > 0 then Finite(a.v / n as real) else NonFinite
  }
}
