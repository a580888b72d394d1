/** Loading and storing a weight matrix from and to a dense matrix.

    `loadWeights` and `copyWeightsTo` exchange a matrix's two buffers with
    an external row-major dense matrix: the weights of output `j` occupy
    `num_inputs` consecutive cells starting at `first_weight_pos +
    j*column_size`.  Internally weight (i, j) lives at `j + i*num_outputs`.

    Both operations first compare the dense matrix's size with a minimum.
    The source's minimum (`SourceMinSize`) is smaller than the largest cell
    actually read or written when `num_inputs < column_size < num_inputs +
    num_outputs`, and larger than needed in other shapes, for instance
    when `column_size > num_inputs + num_outputs`.  `LoadWeightsAsWritten` and `CopyWeightsToAsWritten` use
    it; `LoadWeights` and `CopyWeightsTo` guard with `MinSize`, the least
    size that covers every cell the loops touch (0 when there are no
    weights). */
module WeightLayout {
  import opened Results
  import opened Strides
  import opened Connections

  /** A dense `MatrixFloat`: its cells in row-major order and whether it is
      "simple" (a whole matrix, not a strided sub-matrix view). */
  datatype DenseMatrix = DenseMatrix(cells: seq<Weight>, simple: bool)

  /** Cell of the dense matrix that holds weight (i, j). */
  function External(first: nat, columnSize: nat, i: nat, j: nat): nat
  {
    first + Flat(columnSize, j, i)
  }

  /** The size check as the source writes it:
      `total_size + max(0, int(column_size - num_inputs) - 1) * num_outputs + first_weight_pos`. */
  function SourceMinSize(numInputs: nat, numOutputs: nat, first: nat, columnSize: nat): (m: nat)
    ensures columnSize <= numInputs ==> m == numInputs * numOutputs + first
    ensures columnSize > numInputs ==> m + numOutputs == numInputs * numOutputs + (columnSize - numInputs) * numOutputs + first
  {
    numInputs * numOutputs
    + (if columnSize > numInputs then columnSize - numInputs - 1 else 0) * numOutputs
    + first
  }

  /** The size the loops need: one past the last cell they touch, which is
      input `num_inputs - 1` of output `num_outputs - 1`; 0 when there are
      no weights, since then nothing is touched. */
  function MinSize(numInputs: nat, numOutputs: nat, first: nat, columnSize: nat): nat
  {
    if numInputs == 0 || numOutputs == 0 then 0
    else first + (numOutputs - 1) * columnSize + numInputs
  }

  /** Every cell the loops read or write lies below `MinSize`. */
  lemma MinSizeCoversCell(numInputs: nat, numOutputs: nat, first: nat, columnSize: nat, i: nat, j: nat)
    requires i < numInputs && j < numOutputs
    ensures External(first, columnSize, i, j) < MinSize(numInputs, numOutputs, first, columnSize)
  {
    MulMonotone(j, numOutputs - 1, columnSize);
  }

  lemma MinSizeCoversAll(numInputs: nat, numOutputs: nat, first: nat, columnSize: nat)
    ensures forall i, j :: 0 <= i < numInputs && 0 <= j < numOutputs ==>
              External(first, columnSize, i, j) < MinSize(numInputs, numOutputs, first, columnSize)
  {
    forall i, j | 0 <= i < numInputs && 0 <= j < numOutputs
      ensures External(first, columnSize, i, j) < MinSize(numInputs, numOutputs, first, columnSize)
    {
      MinSizeCoversCell(numInputs, numOutputs, first, columnSize, i, j);
    }
  }

  /** `MinSize` is the least safe bound: the last touched cell sits just
      below it, for every column size. */
  lemma MinSizeIsTight(numInputs: nat, numOutputs: nat, first: nat, columnSize: nat)
    requires numInputs > 0 && numOutputs > 0
    ensures External(first, columnSize, numInputs - 1, numOutputs - 1) + 1
            == MinSize(numInputs, numOutputs, first, columnSize)
  {
  }

  /** When columns are no wider than the inputs the source's check asks for
      at least the needed size (the whole weight count, even when columns
      overlap), and exactly that size for `column_size == num_inputs`. */
  lemma SourceMinSizeAgreesWithoutGaps(numInputs: nat, numOutputs: nat, first: nat, columnSize: nat)
    requires numInputs > 0 && numOutputs > 0 && columnSize <= numInputs
    ensures SourceMinSize(numInputs, numOutputs, first, columnSize)
            >= MinSize(numInputs, numOutputs, first, columnSize)
    ensures columnSize == numInputs ==>
              SourceMinSize(numInputs, numOutputs, first, columnSize)
              == MinSize(numInputs, numOutputs, first, columnSize)
  {
    MulMonotone(columnSize, numInputs, numOutputs - 1);
    assert numInputs * numOutputs == numInputs * (numOutputs - 1) + numInputs;
  }

  /** With gaps between columns the source's check differs from the needed
      size by exactly `column_size - num_inputs - num_outputs`. */
  lemma SourceMinSizeGap(numInputs: nat, numOutputs: nat, first: nat, columnSize: nat)
    requires 1 <= numInputs < columnSize && numOutputs >= 1
    ensures SourceMinSize(numInputs, numOutputs, first, columnSize) + numInputs + numOutputs
            == MinSize(numInputs, numOutputs, first, columnSize) + columnSize
  {
    var g := columnSize - numInputs;
    assert (g - 1) * numOutputs == g * numOutputs - numOutputs;
    assert (numOutputs - 1) * columnSize == numOutputs * columnSize - columnSize;
    assert numInputs * numOutputs + g * numOutputs == numOutputs * columnSize;
  }

  /** Shapes where the needed size is below the weight count: no inputs
      (nothing is touched), and overlapping columns (a 2×2 matrix with
      column size 1 touches cells 0, 1 and 2 only). */
  lemma MinSizeExamples()
    ensures MinSize(0, 3, 0, 1) == 0 && SourceMinSize(0, 3, 0, 1) == 0
    ensures MinSize(2, 2, 0, 1) == 3
    ensures forall i, j :: 0 <= i < 2 && 0 <= j < 2 ==> External(0, 1, i, j) < 3
  {
  }

  /** So for `num_inputs < column_size < num_inputs + num_outputs` a dense
      matrix of exactly `SourceMinSize` cells passes the source's check, yet
      the loops touch the cell of weight (num_inputs-1, num_outputs-1),
      which lies at or beyond its end. */
  lemma SourceGuardAdmitsOutOfBounds(numInputs: nat, numOutputs: nat, first: nat, columnSize: nat)
    requires 1 <= numInputs < columnSize < numInputs + numOutputs
    ensures External(first, columnSize, numInputs - 1, numOutputs - 1)
            >= SourceMinSize(numInputs, numOutputs, first, columnSize)
  {
    SourceMinSizeGap(numInputs, numOutputs, first, columnSize);
    MinSizeIsTight(numInputs, numOutputs, first, columnSize);
  }

  /** In the other direction, for `column_size > num_inputs + num_outputs`
      the source's check demands more cells than the loops touch, so it
      rejects matrices that hold every one of them. */
  lemma SourceGuardRejectsCoveringMatrix(numInputs: nat, numOutputs: nat, first: nat, columnSize: nat)
    requires numOutputs >= 1 && columnSize > numInputs + numOutputs
    ensures MinSize(numInputs, numOutputs, first, columnSize) < SourceMinSize(numInputs, numOutputs, first, columnSize)
  {
    if numInputs == 0 {
      MulMonotone(1, columnSize - 1, numOutputs);
    } else {
      SourceMinSizeGap(numInputs, numOutputs, first, columnSize);
    }
  }

  /** The smallest instance: a 1×2 matrix stored with column size 5 needs
      6 cells (cells 0 and 5), but the source's check asks for 8. */
  lemma SourceGuardRejectionExample()
    ensures MinSize(1, 2, 0, 5) == 6 && SourceMinSize(1, 2, 0, 5) == 8
    ensures External(0, 5, 0, 0) == 0 && External(0, 5, 0, 1) == 5
  {
  }

  /** The smallest instance: a 2×2 matrix stored with column size 3 passes
      the check with 4 cells and has cell 4 read. */
  lemma SourceGuardCounterexample()
    ensures SourceMinSize(2, 2, 0, 3) == 4
    ensures External(0, 3, 1, 1) == 4
  {
  }

  // ---------------------------------------------------------------------
  // What the loops compute.

  /** (i', j') is visited before (i, j): columns outer, inputs inner. */
  predicate Before(i': nat, j': nat, i: nat, j: nat)
  {
    j' < j || (j' == j && i' < i)
  }

  /** Every weight (i, j) of `w` equals cell External(i, j) of `d`. */
  ghost predicate LoadedFrom(w: seq<Weight>, d: seq<Weight>, numInputs: nat, numOutputs: nat,
                             first: nat, columnSize: nat)
  {
    && |w| == numInputs * numOutputs
    && forall i, j :: 0 <= i < numInputs && 0 <= j < numOutputs ==>
         && Flat(numOutputs, i, j) < |w|
         && External(first, columnSize, i, j) < |d|
         && w[Flat(numOutputs, i, j)] == d[External(first, columnSize, i, j)]
  }

  /** Cell `p` is written by a visit that comes before (i, j). */
  ghost predicate WrittenBefore(p: nat, numInputs: nat, numOutputs: nat, first: nat, columnSize: nat,
                                i: nat, j: nat)
  {
    exists i', j' :: 0 <= i' < numInputs && 0 <= j' < numOutputs && Before(i', j', i, j)
                     && External(first, columnSize, i', j') == p
  }

  /** Cell `p` of `dd` holds the weight of some visit before (i, j) that writes it. */
  ghost predicate HoldsWrittenWeight(dd: seq<Weight>, p: nat, w: seq<Weight>, numInputs: nat, numOutputs: nat,
                                     first: nat, columnSize: nat, i: nat, j: nat)
  {
    exists i', j' :: 0 <= i' < numInputs && 0 <= j' < numOutputs && Before(i', j', i, j)
                     && External(first, columnSize, i', j') == p
                     && p < |dd| && Flat(numOutputs, i', j') < |w|
                     && dd[p] == w[Flat(numOutputs, i', j')]
  }

  /** `dd` is `d` after the visits before (i, j): unwritten cells keep their
      value and each written cell holds one of the weights mapped to it
      (with overlapping columns, the one written last). */
  ghost predicate PartialCopy(dd: seq<Weight>, d: seq<Weight>, w: seq<Weight>, numInputs: nat, numOutputs: nat,
                              first: nat, columnSize: nat, i: nat, j: nat)
  {
    && |dd| == |d|
    && forall p :: 0 <= p < |d| ==>
         || (!WrittenBefore(p, numInputs, numOutputs, first, columnSize, i, j) && dd[p] == d[p])
         || HoldsWrittenWeight(dd, p, w, numInputs, numOutputs, first, columnSize, i, j)
  }

  /** `dd` is `d` after all the writes of copyWeightsTo from `w`. */
  ghost predicate CopiedTo(dd: seq<Weight>, d: seq<Weight>, w: seq<Weight>, numInputs: nat, numOutputs: nat,
                           first: nat, columnSize: nat)
  {
    PartialCopy(dd, d, w, numInputs, numOutputs, first, columnSize, 0, numOutputs)
  }

  lemma PartialCopyStart(d: seq<Weight>, w: seq<Weight>, numInputs: nat, numOutputs: nat,
                         first: nat, columnSize: nat)
    ensures PartialCopy(d, d, w, numInputs, numOutputs, first, columnSize, 0, 0)
  {
  }

  lemma PartialCopyStep(dd: seq<Weight>, d: seq<Weight>, w: seq<Weight>, numInputs: nat, numOutputs: nat,
                        first: nat, columnSize: nat, i: nat, j: nat)
    requires PartialCopy(dd, d, w, numInputs, numOutputs, first, columnSize, i, j)
    requires i < numInputs && j < numOutputs
    requires External(first, columnSize, i, j) < |d| && Flat(numOutputs, i, j) < |w|
    ensures PartialCopy(dd[External(first, columnSize, i, j) := w[Flat(numOutputs, i, j)]], d, w,
                        numInputs, numOutputs, first, columnSize, i + 1, j)
  {
    var dd' := dd[External(first, columnSize, i, j) := w[Flat(numOutputs, i, j)]];
    forall p | 0 <= p < |d|
      ensures || (!WrittenBefore(p, numInputs, numOutputs, first, columnSize, i + 1, j) && dd'[p] == d[p])
              || HoldsWrittenWeight(dd', p, w, numInputs, numOutputs, first, columnSize, i + 1, j)
    {
      PartialCopyStepCell(dd, d, w, numInputs, numOutputs, first, columnSize, i, j, p);
    }
    assert PartialCopy(dd', d, w, numInputs, numOutputs, first, columnSize, i + 1, j);
  }

  /** One cell of PartialCopyStep: the cell written at (i, j) now holds that
      weight, and every other cell keeps what it held. */
  lemma PartialCopyStepCell(dd: seq<Weight>, d: seq<Weight>, w: seq<Weight>, numInputs: nat, numOutputs: nat,
                            first: nat, columnSize: nat, i: nat, j: nat, p: nat)
    requires |dd| == |d| && p < |d|
    requires || (!WrittenBefore(p, numInputs, numOutputs, first, columnSize, i, j) && dd[p] == d[p])
             || HoldsWrittenWeight(dd, p, w, numInputs, numOutputs, first, columnSize, i, j)
    requires i < numInputs && j < numOutputs
    requires External(first, columnSize, i, j) < |d| && Flat(numOutputs, i, j) < |w|
    ensures var dd' := dd[External(first, columnSize, i, j) := w[Flat(numOutputs, i, j)]];
            || (!WrittenBefore(p, numInputs, numOutputs, first, columnSize, i + 1, j) && dd'[p] == d[p])
            || HoldsWrittenWeight(dd', p, w, numInputs, numOutputs, first, columnSize, i + 1, j)
  {
    var q := External(first, columnSize, i, j);
    var dd' := dd[q := w[Flat(numOutputs, i, j)]];
    if p == q {
      assert Before(i, j, i + 1, j);
      assert HoldsWrittenWeight(dd', p, w, numInputs, numOutputs, first, columnSize, i + 1, j);
    } else if HoldsWrittenWeight(dd, p, w, numInputs, numOutputs, first, columnSize, i, j) {
      var i', j' :| 0 <= i' < numInputs && 0 <= j' < numOutputs && Before(i', j', i, j)
                    && External(first, columnSize, i', j') == p
                    && p < |dd| && Flat(numOutputs, i', j') < |w|
                    && dd[p] == w[Flat(numOutputs, i', j')];
      assert Before(i', j', i + 1, j);
      assert HoldsWrittenWeight(dd', p, w, numInputs, numOutputs, first, columnSize, i + 1, j);
    } else {
      WrittenBeforeStep(p, numInputs, numOutputs, first, columnSize, i, j);
      assert !WrittenBefore(p, numInputs, numOutputs, first, columnSize, i + 1, j) && dd'[p] == d[p];
    }
  }

  /** The visits before (i + 1, j) are those before (i, j) and (i, j) itself. */
  lemma WrittenBeforeStep(p: nat, numInputs: nat, numOutputs: nat, first: nat, columnSize: nat, i: nat, j: nat)
    requires i < numInputs && j < numOutputs
    ensures WrittenBefore(p, numInputs, numOutputs, first, columnSize, i + 1, j)
            <==> WrittenBefore(p, numInputs, numOutputs, first, columnSize, i, j)
                 || p == External(first, columnSize, i, j)
  {
    if WrittenBefore(p, numInputs, numOutputs, first, columnSize, i + 1, j) {
      var i', j' :| 0 <= i' < numInputs && 0 <= j' < numOutputs && Before(i', j', i + 1, j)
                    && External(first, columnSize, i', j') == p;
      if i' != i || j' != j { assert Before(i', j', i, j); }
    }
    if WrittenBefore(p, numInputs, numOutputs, first, columnSize, i, j) {
      var i', j' :| 0 <= i' < numInputs && 0 <= j' < numOutputs && Before(i', j', i, j)
                    && External(first, columnSize, i', j') == p;
      assert Before(i', j', i + 1, j);
    }
    if p == External(first, columnSize, i, j) {
      assert Before(i, j, i + 1, j);
    }
  }

  /** Having visited every input of column j is having visited every
      column before j + 1. */
  lemma ColumnEndIsNextColumnStart(dd: seq<Weight>, p: nat, w: seq<Weight>, numInputs: nat, numOutputs: nat,
                                   first: nat, columnSize: nat, j: nat)
    ensures WrittenBefore(p, numInputs, numOutputs, first, columnSize, numInputs, j)
            <==> WrittenBefore(p, numInputs, numOutputs, first, columnSize, 0, j + 1)
    ensures HoldsWrittenWeight(dd, p, w, numInputs, numOutputs, first, columnSize, numInputs, j)
            <==> HoldsWrittenWeight(dd, p, w, numInputs, numOutputs, first, columnSize, 0, j + 1)
  {
    if WrittenBefore(p, numInputs, numOutputs, first, columnSize, 0, j + 1) {
      var i', j' :| 0 <= i' < numInputs && 0 <= j' < numOutputs && Before(i', j', 0, j + 1)
                    && External(first, columnSize, i', j') == p;
      assert Before(i', j', numInputs, j);
    }
    if WrittenBefore(p, numInputs, numOutputs, first, columnSize, numInputs, j) {
      var i', j' :| 0 <= i' < numInputs && 0 <= j' < numOutputs && Before(i', j', numInputs, j)
                    && External(first, columnSize, i', j') == p;
      assert Before(i', j', 0, j + 1);
    }
    if HoldsWrittenWeight(dd, p, w, numInputs, numOutputs, first, columnSize, 0, j + 1) {
      var i', j' :| 0 <= i' < numInputs && 0 <= j' < numOutputs && Before(i', j', 0, j + 1)
                    && External(first, columnSize, i', j') == p
                    && p < |dd| && Flat(numOutputs, i', j') < |w|
                    && dd[p] == w[Flat(numOutputs, i', j')];
      assert Before(i', j', numInputs, j);
    }
    if HoldsWrittenWeight(dd, p, w, numInputs, numOutputs, first, columnSize, numInputs, j) {
      var i', j' :| 0 <= i' < numInputs && 0 <= j' < numOutputs && Before(i', j', numInputs, j)
                    && External(first, columnSize, i', j') == p
                    && p < |dd| && Flat(numOutputs, i', j') < |w|
                    && dd[p] == w[Flat(numOutputs, i', j')];
      assert Before(i', j', 0, j + 1);
    }
  }

  lemma PartialCopyNextColumn(dd: seq<Weight>, d: seq<Weight>, w: seq<Weight>, numInputs: nat, numOutputs: nat,
                              first: nat, columnSize: nat, j: nat)
    requires PartialCopy(dd, d, w, numInputs, numOutputs, first, columnSize, numInputs, j)
    ensures PartialCopy(dd, d, w, numInputs, numOutputs, first, columnSize, 0, j + 1)
  {
    forall p | 0 <= p < |d|
      ensures || (!WrittenBefore(p, numInputs, numOutputs, first, columnSize, 0, j + 1) && dd[p] == d[p])
              || HoldsWrittenWeight(dd, p, w, numInputs, numOutputs, first, columnSize, 0, j + 1)
    {
      ColumnEndIsNextColumnStart(dd, p, w, numInputs, numOutputs, first, columnSize, j);
    }
  }

  // ---------------------------------------------------------------------
  // The two operations.

  /** The loop nest of `loadWeights` on a data matrix `d` and an old-weights
      matrix `od` that hold every cell the layout touches. */
  method LoadCells(c: Connections, d: seq<Weight>, od: seq<Weight>, first: nat, columnSize: nat)
    returns (r: (Connections, nat))
    requires c.Valid()
    requires MinSize(c.numInputs, c.numOutputs, first, columnSize) <= |d|
    requires MinSize(c.numInputs, c.numOutputs, first, columnSize) <= |od|
    ensures r.1 == first + c.numOutputs * columnSize
    ensures r.0.Valid() && r.0.SameShapeAndCounters(c)
    ensures LoadedFrom(r.0.weights, d, c.numInputs, c.numOutputs, first, columnSize)
    ensures LoadedFrom(r.0.prevWeights, od, c.numInputs, c.numOutputs, first, columnSize)
  {
    var nIn, nOut := c.numInputs, c.numOutputs;
    FlatBoundAll(nOut, nIn);
    MinSizeCoversAll(nIn, nOut, first, columnSize);
    var w, pw := c.weights, c.prevWeights;
    var pos := first;
    var j := 0;
    while j < nOut
      invariant 0 <= j <= nOut
      invariant pos == first + Flat(columnSize, j, 0)
      invariant |w| == c.totalSize && |pw| == c.totalSize
      invariant forall i', j' :: 0 <= i' < nIn && 0 <= j' < j ==>
                  w[Flat(nOut, i', j')] == d[External(first, columnSize, i', j')]
      invariant forall i', j' :: 0 <= i' < nIn && 0 <= j' < j ==>
                  pw[Flat(nOut, i', j')] == od[External(first, columnSize, i', j')]
    {
      var k := j;
      var i := 0;
      while i < nIn
        invariant 0 <= i <= nIn
        invariant k == Flat(nOut, i, j)
        invariant |w| == c.totalSize && |pw| == c.totalSize
        invariant forall i', j' :: 0 <= i' < nIn && 0 <= j' < nOut && Before(i', j', i, j) ==>
                    w[Flat(nOut, i', j')] == d[External(first, columnSize, i', j')]
        invariant forall i', j' :: 0 <= i' < nIn && 0 <= j' < nOut && Before(i', j', i, j) ==>
                    pw[Flat(nOut, i', j')] == od[External(first, columnSize, i', j')]
      {
        forall i', j' | 0 <= i' < nIn && 0 <= j' < nOut && Before(i', j', i, j)
          ensures Flat(nOut, i', j') != k
        {
          if Flat(nOut, i', j') == k {
            FlatInjective(nOut, i', j', i, j);
          }
        }
        assert pos + i == External(first, columnSize, i, j);
        w := w[k := d[pos + i]];
        pw := pw[k := od[pos + i]];
        FlatNext(nOut, i, j);
        k := k + nOut;
        i := i + 1;
      }
      FlatNext(columnSize, j, 0);
      pos := pos + columnSize;
      j := j + 1;
    }
    return (c.(weights := w, prevWeights := pw), pos);
  }

  /** `loadWeights` with the size check corrected to `MinSize`: the
      old-weights matrix defaults to the weights matrix.  Only `data` is
      size-checked, so an explicit old matrix must be large enough for the
      same cells. */
  method LoadWeights(c: Connections, data: DenseMatrix, oldData: Option<DenseMatrix>,
                     first: nat, columnSize: nat)
    returns (r: Result<(Connections, nat)>)
    requires c.Valid()
    requires oldData.Some? && MinSize(c.numInputs, c.numOutputs, first, columnSize) <= |data.cells|
             && data.simple && oldData.value.simple
             ==> MinSize(c.numInputs, c.numOutputs, first, columnSize) <= |oldData.value.cells|
    ensures MinSize(c.numInputs, c.numOutputs, first, columnSize) > |data.cells|
            ==> r == Fatal(ErrorExit(24, IncorrectMatrixSize))
    ensures r.Ok? <==> && MinSize(c.numInputs, c.numOutputs, first, columnSize) <= |data.cells|
                       && data.simple && (oldData.None? || oldData.value.simple)
    ensures r.Fatal? && MinSize(c.numInputs, c.numOutputs, first, columnSize) <= |data.cells|
            ==> r == Fatal(ErrorExit(128, MatrixNotSimple))
    ensures r.Ok? ==> r.value.1 == first + c.numOutputs * columnSize
    ensures r.Ok? ==> r.value.0.Valid() && r.value.0.SameShapeAndCounters(c)
    ensures r.Ok? ==> LoadedFrom(r.value.0.weights, data.cells, c.numInputs, c.numOutputs, first, columnSize)
    ensures r.Ok? ==> LoadedFrom(r.value.0.prevWeights, (if oldData.Some? then oldData.value else data).cells,
                                 c.numInputs, c.numOutputs, first, columnSize)
  {
    if MinSize(c.numInputs, c.numOutputs, first, columnSize) > |data.cells| {
      return Fatal(ErrorExit(24, IncorrectMatrixSize));
    }
    var od := if oldData.Some? then oldData.value else data;
    if !data.simple || !od.simple {
      return Fatal(ErrorExit(128, MatrixNotSimple));
    }
    var loaded := LoadCells(c, data.cells, od.cells, first, columnSize);
    return Ok(loaded);
  }

  /** `loadWeights` with the size check as the source writes it
      (`SourceMinSize`).  It rejects some matrices that hold every cell
      (`SourceGuardRejectsCoveringMatrix`); the matrices it accepts that do
      not (`SourceGuardAdmitsOutOfBounds`) are read out of bounds by the
      source and are excluded here. */
  method LoadWeightsAsWritten(c: Connections, data: DenseMatrix, oldData: Option<DenseMatrix>,
                              first: nat, columnSize: nat)
    returns (r: Result<(Connections, nat)>)
    requires c.Valid()
    requires var od := if oldData.Some? then oldData.value else data;
             SourceMinSize(c.numInputs, c.numOutputs, first, columnSize) <= |data.cells|
             && data.simple && od.simple
             ==> && MinSize(c.numInputs, c.numOutputs, first, columnSize) <= |data.cells|
                 && MinSize(c.numInputs, c.numOutputs, first, columnSize) <= |od.cells|
    ensures SourceMinSize(c.numInputs, c.numOutputs, first, columnSize) > |data.cells|
            ==> r == Fatal(ErrorExit(24, IncorrectMatrixSize))
    ensures r.Ok? <==> && SourceMinSize(c.numInputs, c.numOutputs, first, columnSize) <= |data.cells|
                       && data.simple && (oldData.None? || oldData.value.simple)
    ensures r.Fatal? && SourceMinSize(c.numInputs, c.numOutputs, first, columnSize) <= |data.cells|
            ==> r == Fatal(ErrorExit(128, MatrixNotSimple))
    ensures r.Ok? ==> r.value.1 == first + c.numOutputs * columnSize
    ensures r.Ok? ==> r.value.0.Valid() && r.value.0.SameShapeAndCounters(c)
    ensures r.Ok? ==> LoadedFrom(r.value.0.weights, data.cells, c.numInputs, c.numOutputs, first, columnSize)
    ensures r.Ok? ==> LoadedFrom(r.value.0.prevWeights, (if oldData.Some? then oldData.value else data).cells,
                                 c.numInputs, c.numOutputs, first, columnSize)
  {
    if SourceMinSize(c.numInputs, c.numOutputs, first, columnSize) > |data.cells| {
      return Fatal(ErrorExit(24, IncorrectMatrixSize));
    }
    var od := if oldData.Some? then oldData.value else data;
    if !data.simple || !od.simple {
      return Fatal(ErrorExit(128, MatrixNotSimple));
    }
    var loaded := LoadCells(c, data.cells, od.cells, first, columnSize);
    return Ok(loaded);
  }

  /** The loop nest of `copyWeightsTo` into matrices `d` and `od` that hold
      every cell the layout touches. */
  method CopyCells(c: Connections, d: seq<Weight>, od: seq<Weight>, first: nat, columnSize: nat)
    returns (r: (seq<Weight>, seq<Weight>, nat))
    requires c.Valid()
    requires MinSize(c.numInputs, c.numOutputs, first, columnSize) <= |d|
    requires MinSize(c.numInputs, c.numOutputs, first, columnSize) <= |od|
    ensures r.2 == first + c.numOutputs * columnSize
    ensures CopiedTo(r.0, d, c.weights, c.numInputs, c.numOutputs, first, columnSize)
    ensures CopiedTo(r.1, od, c.prevWeights, c.numInputs, c.numOutputs, first, columnSize)
  {
    var nIn, nOut := c.numInputs, c.numOutputs;
    FlatBoundAll(nOut, nIn);
    MinSizeCoversAll(nIn, nOut, first, columnSize);
    var w, pw := c.weights, c.prevWeights;
    var dd, odd := d, od;
    PartialCopyStart(d, w, nIn, nOut, first, columnSize);
    PartialCopyStart(od, pw, nIn, nOut, first, columnSize);
    var pos := first;
    var j := 0;
    while j < nOut
      invariant 0 <= j <= nOut
      invariant pos == first + Flat(columnSize, j, 0)
      invariant PartialCopy(dd, d, w, nIn, nOut, first, columnSize, 0, j)
      invariant PartialCopy(odd, od, pw, nIn, nOut, first, columnSize, 0, j)
    {
      var k := j;
      var i := 0;
      while i < nIn
        invariant 0 <= i <= nIn
        invariant k == Flat(nOut, i, j)
        invariant PartialCopy(dd, d, w, nIn, nOut, first, columnSize, i, j)
        invariant PartialCopy(odd, od, pw, nIn, nOut, first, columnSize, i, j)
      {
        assert pos + i == External(first, columnSize, i, j);
        PartialCopyStep(dd, d, w, nIn, nOut, first, columnSize, i, j);
        PartialCopyStep(odd, od, pw, nIn, nOut, first, columnSize, i, j);
        dd := dd[pos + i := w[k]];
        odd := odd[pos + i := pw[k]];
        FlatNext(nOut, i, j);
        k := k + nOut;
        i := i + 1;
      }
      PartialCopyNextColumn(dd, d, w, nIn, nOut, first, columnSize, j);
      PartialCopyNextColumn(odd, od, pw, nIn, nOut, first, columnSize, j);
      FlatNext(columnSize, j, 0);
      pos := pos + columnSize;
      j := j + 1;
    }
    return (dd, odd, pos);
  }

  /** `copyWeightsTo` with the size check corrected to `MinSize`: writes
      both buffers out with the same layout.  The old-weights matrix is
      required (the source dereferences it) and, as in the source, only
      `data` is size-checked. */
  method CopyWeightsTo(c: Connections, data: DenseMatrix, oldData: DenseMatrix,
                       first: nat, columnSize: nat)
    returns (r: Result<(DenseMatrix, DenseMatrix, nat)>)
    requires c.Valid()
    requires MinSize(c.numInputs, c.numOutputs, first, columnSize) <= |data.cells| && data.simple && oldData.simple
             ==> MinSize(c.numInputs, c.numOutputs, first, columnSize) <= |oldData.cells|
    ensures MinSize(c.numInputs, c.numOutputs, first, columnSize) > |data.cells|
            ==> r == Fatal(ErrorExit(24, IncorrectMatrixSize))
    ensures r.Ok? <==> && MinSize(c.numInputs, c.numOutputs, first, columnSize) <= |data.cells|
                       && data.simple && oldData.simple
    ensures r.Fatal? && MinSize(c.numInputs, c.numOutputs, first, columnSize) <= |data.cells|
            ==> r == Fatal(ErrorExit(128, MatrixNotSimple))
    ensures r.Ok? ==> r.value.2 == first + c.numOutputs * columnSize
    ensures r.Ok? ==> r.value.0.simple && r.value.1.simple
    ensures r.Ok? ==> CopiedTo(r.value.0.cells, data.cells, c.weights, c.numInputs, c.numOutputs, first, columnSize)
    ensures r.Ok? ==> CopiedTo(r.value.1.cells, oldData.cells, c.prevWeights, c.numInputs, c.numOutputs,
                               first, columnSize)
  {
    if MinSize(c.numInputs, c.numOutputs, first, columnSize) > |data.cells| {
      return Fatal(ErrorExit(24, IncorrectMatrixSize));
    }
    if !data.simple || !oldData.simple {
      return Fatal(ErrorExit(128, MatrixNotSimple));
    }
    var copied := CopyCells(c, data.cells, oldData.cells, first, columnSize);
    return Ok((DenseMatrix(copied.0, true), DenseMatrix(copied.1, true), copied.2));
  }

  /** `copyWeightsTo` with the size check as the source writes it; as for
      `LoadWeightsAsWritten`, accepted matrices that the loops would overrun
      are excluded. */
  method CopyWeightsToAsWritten(c: Connections, data: DenseMatrix, oldData: DenseMatrix,
                                first: nat, columnSize: nat)
    returns (r: Result<(DenseMatrix, DenseMatrix, nat)>)
    requires c.Valid()
    requires SourceMinSize(c.numInputs, c.numOutputs, first, columnSize) <= |data.cells|
             && data.simple && oldData.simple
             ==> && MinSize(c.numInputs, c.numOutputs, first, columnSize) <= |data.cells|
                 && MinSize(c.numInputs, c.numOutputs, first, columnSize) <= |oldData.cells|
    ensures SourceMinSize(c.numInputs, c.numOutputs, first, columnSize) > |data.cells|
            ==> r == Fatal(ErrorExit(24, IncorrectMatrixSize))
    ensures r.Ok? <==> && SourceMinSize(c.numInputs, c.numOutputs, first, columnSize) <= |data.cells|
                       && data.simple && oldData.simple
    ensures r.Fatal? && SourceMinSize(c.numInputs, c.numOutputs, first, columnSize) <= |data.cells|
            ==> r == Fatal(ErrorExit(128, MatrixNotSimple))
    ensures r.Ok? ==> r.value.2 == first + c.numOutputs * columnSize
    ensures r.Ok? ==> r.value.0.simple && r.value.1.simple
    ensures r.Ok? ==> CopiedTo(r.value.0.cells, data.cells, c.weights, c.numInputs, c.numOutputs, first, columnSize)
    ensures r.Ok? ==> CopiedTo(r.value.1.cells, oldData.cells, c.prevWeights, c.numInputs, c.numOutputs,
                               first, columnSize)
  {
    if SourceMinSize(c.numInputs, c.numOutputs, first, columnSize) > |data.cells| {
      return Fatal(ErrorExit(24, IncorrectMatrixSize));
    }
    if !data.simple || !oldData.simple {
      return Fatal(ErrorExit(128, MatrixNotSimple));
    }
    var copied := CopyCells(c, data.cells, oldData.cells, first, columnSize);
    return Ok((DenseMatrix(copied.0, true), DenseMatrix(copied.1, true), copied.2));
  }

  // ---------------------------------------------------------------------
  // Round trips.

  /** A cell written by copyWeightsTo. */
  ghost predicate Touched(p: nat, numInputs: nat, numOutputs: nat, first: nat, columnSize: nat)
  {
    WrittenBefore(p, numInputs, numOutputs, first, columnSize, 0, numOutputs)
  }

  /** Loading from `d` and then copying into `e` at the same offset and
      column size puts `d`'s value into every cell the layout touches and
      leaves every other cell of `e` alone.  Copying back into `d` itself
      therefore reproduces it exactly. */
  lemma LoadThenCopyReproducesCells(w: seq<Weight>, d: seq<Weight>, e: seq<Weight>, e': seq<Weight>,
                                    numInputs: nat, numOutputs: nat, first: nat, columnSize: nat)
    requires LoadedFrom(w, d, numInputs, numOutputs, first, columnSize)
    requires CopiedTo(e', e, w, numInputs, numOutputs, first, columnSize)
    requires |e| == |d|
    ensures |e'| == |e|
    ensures forall p :: 0 <= p < |e| && Touched(p, numInputs, numOutputs, first, columnSize) ==> e'[p] == d[p]
    ensures forall p :: 0 <= p < |e| && !Touched(p, numInputs, numOutputs, first, columnSize) ==> e'[p] == e[p]
  {
    forall p | 0 <= p < |e| && Touched(p, numInputs, numOutputs, first, columnSize)
      ensures e'[p] == d[p]
    {
      var i, j :| 0 <= i < numInputs && 0 <= j < numOutputs && Before(i, j, 0, numOutputs)
                  && External(first, columnSize, i, j) == p
                  && p < |e'| && Flat(numOutputs, i, j) < |w|
                  && e'[p] == w[Flat(numOutputs, i, j)];
    }
  }

  lemma LoadThenCopyRoundTrip(w: seq<Weight>, d: seq<Weight>, d': seq<Weight>,
                              numInputs: nat, numOutputs: nat, first: nat, columnSize: nat)
    requires LoadedFrom(w, d, numInputs, numOutputs, first, columnSize)
    requires CopiedTo(d', d, w, numInputs, numOutputs, first, columnSize)
    ensures d' == d
  {
    LoadThenCopyReproducesCells(w, d, d, d', numInputs, numOutputs, first, columnSize);
  }

  /** With non-overlapping columns (`column_size >= num_inputs`) copying the
      weights out and loading them back restores them. */
  lemma CopyThenLoadRoundTrip(w: seq<Weight>, d: seq<Weight>, d': seq<Weight>, w': seq<Weight>,
                              numInputs: nat, numOutputs: nat, first: nat, columnSize: nat)
    requires columnSize >= numInputs
    requires |w| == numInputs * numOutputs
    requires CopiedTo(d', d, w, numInputs, numOutputs, first, columnSize)
    requires LoadedFrom(w', d', numInputs, numOutputs, first, columnSize)
    ensures w' == w
  {
    forall k | 0 <= k < |w|
      ensures w'[k] == w[k]
    {
      FlatCovers(numOutputs, numInputs, k);
      CopyThenLoadCell(w, d, d', w', numInputs, numOutputs, first, columnSize, k / numOutputs, k % numOutputs);
    }
  }

  /** The round trip for one weight (i, j): the only visit that writes its
      cell is its own. */
  lemma CopyThenLoadCell(w: seq<Weight>, d: seq<Weight>, d': seq<Weight>, w': seq<Weight>,
                         numInputs: nat, numOutputs: nat, first: nat, columnSize: nat, i: nat, j: nat)
    requires columnSize >= numInputs
    requires i < numInputs && j < numOutputs
    requires CopiedTo(d', d, w, numInputs, numOutputs, first, columnSize)
    requires LoadedFrom(w', d', numInputs, numOutputs, first, columnSize)
    ensures Flat(numOutputs, i, j) < |w| && Flat(numOutputs, i, j) < |w'|
    ensures w'[Flat(numOutputs, i, j)] == w[Flat(numOutputs, i, j)]
  {
    var p := External(first, columnSize, i, j);
    assert Before(i, j, 0, numOutputs);
    assert WrittenBefore(p, numInputs, numOutputs, first, columnSize, 0, numOutputs);
    assert HoldsWrittenWeight(d', p, w, numInputs, numOutputs, first, columnSize, 0, numOutputs);
    var i', j' :| 0 <= i' < numInputs && 0 <= j' < numOutputs && Before(i', j', 0, numOutputs)
                  && External(first, columnSize, i', j') == p
                  && p < |d'| && Flat(numOutputs, i', j') < |w|
                  && d'[p] == w[Flat(numOutputs, i', j')];
    FlatInjective(columnSize, j', i', j, i);
  }
}
