/** The shared weight matrix (`Connections`).

    A matrix owns the live weights and a staging buffer (`prev_weights`)
    of `num_inputs × num_outputs` cells, output index fastest.  Every
    component that will update it per training step counts one reference;
    the update barrier swaps the two buffers only after the last of those
    components has contributed. */
module Connections {
  import opened Results
  import opened Strides
  import opened Blas

  type Weight = real

  /** Bounds of a random weight range must lie outside (-1e-7, 1e-7). */
  const WeightNearZero: real := 0.0000001

  datatype Connections = Connections(
    numInputs: nat,
    numOutputs: nat,
    totalSize: nat,
    weights: seq<Weight>,
    prevWeights: seq<Weight>,
    numReferences: nat,
    updateWeightsCalls: nat)
  {
    /** The shape is fixed at construction and both buffers have its size. */
    predicate Valid()
    {
      && totalSize == numInputs * numOutputs
      && |weights| == totalSize
      && |prevWeights| == totalSize
    }

    /** Same object identity as far as the model can tell: shape and counters. */
    predicate SameShapeAndCounters(other: Connections)
    {
      && numInputs == other.numInputs
      && numOutputs == other.numOutputs
      && totalSize == other.totalSize
      && numReferences == other.numReferences
      && updateWeightsCalls == other.updateWeightsCalls
    }
  }

  function Abs(x: real): real
  {
    if x < 0.0 then -x else x
  }

  /** The constructor.  The source leaves the fresh buffers uninitialised;
      the model fills them with zeros. */
  function New(numInputs: nat, numOutputs: nat): (c: Connections)
    ensures c.Valid()
    ensures c.numInputs == numInputs && c.numOutputs == numOutputs
    ensures c.totalSize == numInputs * numOutputs
    ensures c.numReferences == 0 && c.updateWeightsCalls == 0
  {
    var total := numInputs * numOutputs;
    Connections(numInputs, numOutputs, total,
                seq(total, _ => 0.0), seq(total, _ => 0.0), 0, 0)
  }

  /** True exactly when both dimensions are the stored ones; a function, so
      it cannot change the matrix. */
  function CheckInputOutputSizes(c: Connections, inputSize: nat, outputSize: nat): (ok: bool)
    ensures ok <==> c.numInputs == inputSize && c.numOutputs == outputSize
  {
    if c.numInputs != inputSize then false
    else if c.numOutputs != outputSize then false
    else true
  }

  function CountReference(c: Connections): (r: Connections)
    ensures r.numReferences == c.numReferences + 1
    ensures r == c.(numReferences := r.numReferences)
  {
    c.(numReferences := c.numReferences + 1)
  }

  function BeginUpdate(c: Connections): (r: Connections)
    ensures r.updateWeightsCalls == c.updateWeightsCalls + 1
    ensures r == c.(updateWeightsCalls := r.updateWeightsCalls)
  {
    c.(updateWeightsCalls := c.updateWeightsCalls + 1)
  }

  function IsFirstUpdateCall(c: Connections): (first: bool)
    ensures first <==> c.updateWeightsCalls == 1
  {
    c.updateWeightsCalls == 1
  }

  /** Returns the matrix afterwards and whether the buffers were swapped. */
  function EndUpdate(c: Connections): (r: (Connections, bool))
    ensures r.1 <==> c.updateWeightsCalls == c.numReferences
    ensures r.1 ==> r.0 == c.(weights := c.prevWeights, prevWeights := c.weights,
                              updateWeightsCalls := 0)
    ensures !r.1 ==> r.0 == c
  {
    if c.updateWeightsCalls == c.numReferences then
      (c.(weights := c.prevWeights, prevWeights := c.weights, updateWeightsCalls := 0), true)
    else
      (c, false)
  }

  /** prev := -momentum * (prev - w), computed as a saxpy then a scal. */
  function ComputeMomentumOnPrevVector(c: Connections, momentum: real): (r: Connections)
    requires c.Valid()
    ensures r.Valid() && r == c.(prevWeights := r.prevWeights)
    ensures forall k :: 0 <= k < |r.prevWeights| ==>
              r.prevWeights[k] == -momentum * (c.prevWeights[k] - c.weights[k])
  {
    c.(prevWeights := Sscal(-momentum, Saxpy(-1.0, c.weights, c.prevWeights)))
  }

  /** prev := decay * w + prev. */
  function ComputeWeightDecayOnPrevVector(c: Connections, decay: real): (r: Connections)
    requires c.Valid()
    ensures r.Valid() && r == c.(prevWeights := r.prevWeights)
    ensures forall k :: 0 <= k < |r.prevWeights| ==>
              r.prevWeights[k] == decay * c.weights[k] + c.prevWeights[k]
  {
    c.(prevWeights := Saxpy(decay, c.weights, c.prevWeights))
  }

  /** prev := w. */
  function CopyToPrevVector(c: Connections): (r: Connections)
    ensures r == c.(prevWeights := c.weights)
  {
    c.(prevWeights := c.weights)
  }

  /** A fresh matrix of the same shape holding copies of both buffers; its
      counters start again from zero. */
  function Clone(c: Connections): (r: Connections)
    requires c.Valid()
    ensures r.Valid()
    ensures r.numInputs == c.numInputs && r.numOutputs == c.numOutputs
    ensures r.weights == c.weights && r.prevWeights == c.prevWeights
    ensures r.numReferences == 0 && r.updateWeightsCalls == 0
  {
    New(c.numInputs, c.numOutputs).(weights := c.weights, prevWeights := c.prevWeights)
  }

  /** `scale`: both buffers multiplied by `alpha`; shape and counters kept. */
  function Scale(c: Connections, alpha: real): (r: Connections)
    requires c.Valid()
    ensures r.Valid() && r.SameShapeAndCounters(c)
    ensures forall k :: 0 <= k < c.totalSize ==>
              r.weights[k] == alpha * c.weights[k] && r.prevWeights[k] == alpha * c.prevWeights[k]
  {
    c.(weights := Sscal(alpha, c.weights), prevWeights := Sscal(alpha, c.prevWeights))
  }

  /** Scaling by `alpha` and then by `beta` is scaling by their
      product; scaling by 1 changes nothing. */
  lemma ScaleComposes(c: Connections, alpha: real, beta: real)
    requires c.Valid()
    ensures Scale(Scale(c, alpha), beta) == Scale(c, beta * alpha)
    ensures Scale(c, 1.0) == c
  {
    var l, r := Scale(Scale(c, alpha), beta), Scale(c, beta * alpha);
    forall k | 0 <= k < c.totalSize
      ensures l.weights[k] == r.weights[k] && l.prevWeights[k] == r.prevWeights[k]
    {
      assert beta * (alpha * c.weights[k]) == (beta * alpha) * c.weights[k];
      assert beta * (alpha * c.prevWeights[k]) == (beta * alpha) * c.prevWeights[k];
    }
    assert l.weights == r.weights && l.prevWeights == r.prevWeights;
    assert Scale(c, 1.0).weights == c.weights && Scale(c, 1.0).prevWeights == c.prevWeights;
  }

  // ---------------------------------------------------------------------
  // Random initialisation.  `draw(n)` is the n-th weight the generator
  // produces through `rnd_weight`; the generator itself is external.

  /** Every cell (i, j) holds draw number j*num_inputs + i in both buffers. */
  ghost predicate FullyRandomized(c: Connections, w: seq<Weight>, pw: seq<Weight>, draw: nat -> Weight)
  {
    && |w| == c.totalSize && |pw| == c.totalSize
    && forall i, j :: 0 <= i < c.numInputs && 0 <= j < c.numOutputs ==>
         && Flat(c.numOutputs, i, j) < |w|
         && w[Flat(c.numOutputs, i, j)] == draw(Flat(c.numInputs, j, i))
         && pw[Flat(c.numOutputs, i, j)] == w[Flat(c.numOutputs, i, j)]
  }

  /** Cells (i', j') visited before (i, j), outputs outer and inputs inner,
      hold their draw in both buffers. */
  ghost predicate RandomizedBefore(c: Connections, w: seq<Weight>, pw: seq<Weight>, draw: nat -> Weight,
                                   i: nat, j: nat)
  {
    && |w| == c.totalSize && |pw| == c.totalSize
    && forall i', j' :: 0 <= i' < c.numInputs && 0 <= j' < c.numOutputs && (j' < j || (j' == j && i' < i)) ==>
         && Flat(c.numOutputs, i', j') < |w|
         && w[Flat(c.numOutputs, i', j')] == draw(Flat(c.numInputs, j', i'))
         && pw[Flat(c.numOutputs, i', j')] == w[Flat(c.numOutputs, i', j')]
  }

  method RandomizeWeights(c: Connections, draw: nat -> Weight, low: real, high: real)
    returns (r: Result<Connections>)
    requires c.Valid()
    ensures r.Ok? <==> Abs(low) > WeightNearZero && Abs(high) > WeightNearZero
    ensures r.Fatal? ==> r.failure == AssertionFailed(NearZeroRange)
    ensures r.Ok? ==> r.value.Valid() && r.value.SameShapeAndCounters(c)
    ensures r.Ok? ==> FullyRandomized(c, r.value.weights, r.value.prevWeights, draw)
  {
    if !(Abs(low) > WeightNearZero && Abs(high) > WeightNearZero) {
      return Fatal(AssertionFailed(NearZeroRange));
    }
    var w, pw := c.weights, c.prevWeights;
    var j := 0;
    while j < c.numOutputs
      invariant 0 <= j <= c.numOutputs
      invariant RandomizedBefore(c, w, pw, draw, 0, j)
    {
      w, pw := RandomizeOutput(c, w, pw, draw, j);
      j := j + 1;
    }
    return Ok(c.(weights := w, prevWeights := pw));
  }

  /** The inner loop of `randomizeWeights` for output `j`. */
  method RandomizeOutput(c: Connections, w0: seq<Weight>, pw0: seq<Weight>, draw: nat -> Weight, j: nat)
    returns (w: seq<Weight>, pw: seq<Weight>)
    requires c.Valid() && j < c.numOutputs
    requires RandomizedBefore(c, w0, pw0, draw, 0, j)
    ensures RandomizedBefore(c, w, pw, draw, 0, j + 1)
  {
    var nIn, nOut := c.numInputs, c.numOutputs;
    FlatBoundAll(nOut, nIn);
    w, pw := w0, pw0;
    var k := j;
    var i := 0;
    while i < nIn
      invariant 0 <= i <= nIn
      invariant k == Flat(nOut, i, j)
      invariant RandomizedBefore(c, w, pw, draw, i, j)
    {
      forall i', j' | 0 <= i' < nIn && 0 <= j' < nOut && (j' < j || (j' == j && i' < i))
        ensures Flat(nOut, i', j') != k
      {
        if Flat(nOut, i', j') == k {
          FlatInjective(nOut, i', j', i, j);
        }
      }
      w := w[k := draw(Flat(nIn, j, i))];
      pw := pw[k := w[k]];
      FlatNext(nOut, i, j);
      k := k + nOut;
      i := i + 1;
    }
  }

  /** Cells of column `col` hold draws 0, 1, ... in input order in both
      buffers; every other cell keeps its value. */
  ghost predicate ColumnRandomized(c: Connections, col: nat, w: seq<Weight>, pw: seq<Weight>,
                                   draw: nat -> Weight)
  {
    && c.Valid()
    && |w| == c.totalSize && |pw| == c.totalSize
    && (forall i :: 0 <= i < c.numInputs ==>
          && Flat(c.numOutputs, i, col) < |w|
          && w[Flat(c.numOutputs, i, col)] == draw(i)
          && pw[Flat(c.numOutputs, i, col)] == draw(i))
    && (forall i, j :: 0 <= i < c.numInputs && 0 <= j < c.numOutputs && j != col ==>
          && Flat(c.numOutputs, i, j) < |w|
          && w[Flat(c.numOutputs, i, j)] == c.weights[Flat(c.numOutputs, i, j)]
          && pw[Flat(c.numOutputs, i, j)] == c.prevWeights[Flat(c.numOutputs, i, j)])
  }

  /** The source does not check `col`; a column outside the matrix would be
      written out of bounds, so callers must pass an existing column. */
  method RandomizeWeightsAtColumn(c: Connections, col: nat, draw: nat -> Weight, low: real, high: real)
    returns (r: Result<Connections>)
    requires c.Valid()
    requires c.numInputs == 0 || col < c.numOutputs
    ensures r.Ok? <==> Abs(low) > WeightNearZero && Abs(high) > WeightNearZero
    ensures r.Fatal? ==> r.failure == AssertionFailed(NearZeroRange)
    ensures r.Ok? ==> r.value.Valid() && r.value.SameShapeAndCounters(c)
    ensures r.Ok? ==> ColumnRandomized(c, col, r.value.weights, r.value.prevWeights, draw)
  {
    if !(Abs(low) > WeightNearZero && Abs(high) > WeightNearZero) {
      return Fatal(AssertionFailed(NearZeroRange));
    }
    var nIn, nOut := c.numInputs, c.numOutputs;
    var w, pw := c.weights, c.prevWeights;
    FlatBoundAll(nOut, nIn);
    var k := col;
    var i := 0;
    while i < nIn
      invariant 0 <= i <= nIn
      invariant k == Flat(nOut, i, col)
      invariant |w| == c.totalSize && |pw| == c.totalSize
      invariant forall i' :: 0 <= i' < i ==> w[Flat(nOut, i', col)] == draw(i')
      invariant forall i' :: 0 <= i' < i ==> pw[Flat(nOut, i', col)] == draw(i')
      invariant forall i', j :: 0 <= i' < nIn && 0 <= j < nOut && (j != col || i' >= i) ==>
                  w[Flat(nOut, i', j)] == c.weights[Flat(nOut, i', j)]
      invariant forall i', j :: 0 <= i' < nIn && 0 <= j < nOut && (j != col || i' >= i) ==>
                  pw[Flat(nOut, i', j)] == c.prevWeights[Flat(nOut, i', j)]
    {
      forall i', j' | 0 <= i' < nIn && 0 <= j' < nOut && (j' != col || i' != i)
        ensures Flat(nOut, i', j') != k
      {
        if Flat(nOut, i', j') == k {
          FlatInjective(nOut, i', j', i, col);
        }
      }
      w := w[k := draw(i)];
      pw := pw[k := draw(i)];
      k := k + nOut;
      i := i + 1;
    }
    return Ok(c.(weights := w, prevWeights := pw));
  }

  // ---------------------------------------------------------------------
  // The update barrier over a whole training step.

  /** `n` components each calling beginUpdate then endUpdate; returns the
      matrix afterwards and, per call, whether endUpdate swapped. */
  function RunPairs(c: Connections, n: nat): (Connections, seq<bool>)
    decreases n
  {
    if n == 0 then (c, [])
    else
      var (c1, swapped) := EndUpdate(BeginUpdate(c));
      var (c2, rest) := RunPairs(c1, n - 1);
      (c2, [swapped] + rest)
  }

  /** `n` endUpdate results that did not swap. */
  function NoSwaps(n: nat): seq<bool>
  {
    seq(n, _ => false)
  }

  /** Before the last referencing component has contributed nothing is
      swapped; the calls are only counted. */
  lemma {:induction false} PairsBeforeLastDoNotSwap(c: Connections, n: nat)
    requires c.updateWeightsCalls + n < c.numReferences
    ensures RunPairs(c, n) == (c.(updateWeightsCalls := c.updateWeightsCalls + n), NoSwaps(n))
    decreases n
  {
    if n == 0 {
      assert c.(updateWeightsCalls := c.updateWeightsCalls + n) == c;
      assert NoSwaps(n) == [];
    } else {
      var c1 := BeginUpdate(c);
      assert EndUpdate(c1) == (c1, false);
      PairsBeforeLastDoNotSwap(c1, n - 1);
      assert [false] + NoSwaps(n - 1) == NoSwaps(n);
    }
  }

  /** The pairs that complete the cycle: only the last one swaps, and the
      counter ends at zero. */
  lemma {:induction false} RemainingPairsSwapOnce(c: Connections, n: nat)
    requires n >= 1 && c.updateWeightsCalls + n == c.numReferences
    ensures RunPairs(c, n) ==
            (c.(weights := c.prevWeights, prevWeights := c.weights, updateWeightsCalls := 0),
             NoSwaps(n - 1) + [true])
    decreases n
  {
    var c1 := BeginUpdate(c);
    if n == 1 {
      var c2 := c.(weights := c.prevWeights, prevWeights := c.weights, updateWeightsCalls := 0);
      assert EndUpdate(c1) == (c2, true);
      assert RunPairs(c2, 0) == (c2, []);
      assert RunPairs(c, 1) == (c2, [true] + []);
      assert NoSwaps(0) == [];
      assert NoSwaps(n - 1) + [true] == [true];
      assert [true] + [] == [true];
      assert RunPairs(c, n).1 == NoSwaps(n - 1) + [true];
      assert RunPairs(c, n).0 == c2;
    } else {
      assert EndUpdate(c1) == (c1, false);
      RemainingPairsSwapOnce(c1, n - 1);
      assert [false] + (NoSwaps(n - 2) + [true]) == NoSwaps(n - 1) + [true];
    }
  }

  /** With K >= 1 references, K begin/end pairs starting from a fresh cycle
      swap the buffers exactly once, at the K-th end, and leave the counter
      at zero. */
  lemma FullCycleSwapsOnce(c: Connections)
    requires c.numReferences >= 1 && c.updateWeightsCalls == 0
    ensures RunPairs(c, c.numReferences).0 == c.(weights := c.prevWeights, prevWeights := c.weights)
    ensures RunPairs(c, c.numReferences).1 == NoSwaps(c.numReferences - 1) + [true]
  {
    RemainingPairsSwapOnce(c, c.numReferences);
  }
}
