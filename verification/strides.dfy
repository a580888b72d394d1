/** Flat offsets in strided buffers.

    Every buffer of the runtime is a flat array read with a stride: the
    weight matrix keeps output `j` of input `i` at `j + i*num_outputs`, and an
    activation buffer keeps bunch element `b` of unit `i` at
    `b + i*max_bunch_size`.  The facts about that map are proved once here. */
module Strides {

  /** Offset of element (`major`, `minor`) when `minor` varies fastest. */
  function Flat(stride: nat, major: nat, minor: nat): nat
  {
    minor + major * stride
  }

  /** One more major step advances the offset by one stride. */
  lemma FlatNext(stride: nat, major: nat, minor: nat)
    ensures Flat(stride, major + 1, minor) == Flat(stride, major, minor) + stride
  {
  }

  lemma MulMonotone(x: nat, y: nat, m: nat)
    requires x <= y
    ensures x * m <= y * m
  {
    assert y * m == x * m + (y - x) * m;
  }

  /** Distinct coordinates never share an offset. */
  lemma FlatInjective(stride: nat, a: nat, b: nat, a': nat, b': nat)
    requires b < stride && b' < stride
    requires Flat(stride, a, b) == Flat(stride, a', b')
    ensures a == a' && b == b'
  {
    if a < a' {
      MulMonotone(a + 1, a', stride);
      assert false;
    } else if a' < a {
      MulMonotone(a' + 1, a, stride);
      assert false;
    }
  }

  /** The offsets of a `count × stride` block stay inside it. */
  lemma FlatBound(stride: nat, count: nat, a: nat, b: nat)
    requires a < count && b < stride
    ensures Flat(stride, a, b) < count * stride
  {
    MulMonotone(a + 1, count, stride);
  }

  lemma FlatBoundAll(stride: nat, count: nat)
    ensures forall a, b :: 0 <= a < count && 0 <= b < stride ==> Flat(stride, a, b) < count * stride
  {
    forall a, b | 0 <= a < count && 0 <= b < stride
      ensures Flat(stride, a, b) < count * stride
    {
      FlatBound(stride, count, a, b);
    }
  }

  /** Every offset of a `count × stride` block is reached by some coordinate. */
  lemma FlatCovers(stride: nat, count: nat, k: nat)
    requires k < count * stride
    ensures stride > 0
    ensures k / stride < count && k % stride < stride
    ensures Flat(stride, k / stride, k % stride) == k
  {
    if stride > 0 && k / stride >= count {
      MulMonotone(count, k / stride, stride);
      assert false;
    }
  }
}
