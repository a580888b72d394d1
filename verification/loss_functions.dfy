/** Loss functions (`LossFunction`, `MSELossFunction`, `MAELossFunction`).

    A loss function compares an output token with a target token of the
    same used size, `size` values per pattern, and keeps a running loss.
    The per-element kernels belong to the numeric backend: each is a
    parameter that maps the two tokens, the pattern size and the bunch
    size to the raw (unscaled) loss.  Loss values are `Float`: the source
    divides by the bunch size and by the call count, either of which can be
    zero. */
module LossFunctions {
  import opened Results
  import opened Tokens
  import opened FloatModel
  import opened Strides

  type LossKernel = (Token, Token, nat, nat) -> real

  // ---------------------------------------------------------------------
  // the base class

  /** The state of `LossFunction` itself: the pattern size and the held
      error token (`None` is the null pointer). */
  datatype LossCore = LossCore(size: nat, errorOutput: Option<Token>)

  /** The base constructor: a size of zero is fatal; no error token is held. */
  function NewLossCore(size: nat): (r: Result<LossCore>)
    ensures r.Fatal? <==> size == 0
    ensures r.Fatal? ==> r.failure == ErrorExit(128, ZeroSizeLoss)
    ensures r.Ok? ==> r.value.size == size && r.value.errorOutput.None?
  {
    if size == 0 then Fatal(ErrorExit(128, ZeroSizeLoss)) else Ok(LossCore(size, None))
  }

  /** The base `reset`: releases any held error token. */
  function ResetCore(c: LossCore): (r: LossCore)
    ensures r.errorOutput.None? && r.size == c.size
  {
    c.(errorOutput := None)
  }

  /** The tokens the base destructor releases: the error token, only when
      one is held. */
  function ReleasedByBase(c: LossCore): (r: seq<Token>)
    ensures c.errorOutput.None? ==> r == []
    ensures c.errorOutput.Some? ==> r == [c.errorOutput.value]
  {
    match c.errorOutput
    case None => []
    case Some(t) => [t]
  }

  /** The checks every operation makes, in order: the input is a memory
      block, the target is a memory block, their used sizes are equal.
      Yields the common used size. */
  function CheckPair(input: Token, target: Token): (r: Result<nat>)
    ensures r.Ok? <==> input.code == MemBlock && target.code == MemBlock && input.usedSize == target.usedSize
    ensures input.code != MemBlock ==> r == Fatal(ErrorExit(128, IncorrectTokenType))
    ensures input.code == MemBlock && target.code != MemBlock ==> r == Fatal(ErrorExit(128, IncorrectTargetType))
    ensures input.code == MemBlock && target.code == MemBlock && input.usedSize != target.usedSize
            ==> r == Fatal(ErrorExit(128, DifferentTokenSizes))
    ensures r.Ok? ==> r.value == input.usedSize
  {
    if input.code != MemBlock then Fatal(ErrorExit(128, IncorrectTokenType))
    else if target.code != MemBlock then Fatal(ErrorExit(128, IncorrectTargetType))
    else if input.usedSize != target.usedSize then Fatal(ErrorExit(128, DifferentTokenSizes))
    else Ok(input.usedSize)
  }

  /** The number of whole patterns in a token of `used` cells. */
  function BunchSize(used: nat, size: nat): (b: nat)
    requires size > 0
    ensures b * size <= used < (b + 1) * size
  {
    used / size
  }

  // ---------------------------------------------------------------------
  // mean squared error

  /** `MSELossFunction`: its own error block, which is also the base's
      error token for the whole lifetime, the last input and the running
      loss. */
  datatype Mse = Mse(core: LossCore, errorMemBlock: Token, input: Option<Token>, accumulated: Float)
  {
    predicate Valid()
    {
      core.size > 0 && core.errorOutput == Some(errorMemBlock) && errorMemBlock.code == MemBlock
    }
  }

  /** The constructor: a new memory block of `size` cells (`blockId`) held
      as the error token; the running loss starts at zero.  The used size
      of a new block is taken to be its size. */
  function NewMse(size: nat, blockId: nat): (r: Result<Mse>)
    ensures r.Fatal? <==> size == 0
    ensures r.Fatal? ==> r.failure == ErrorExit(128, ZeroSizeLoss)
    ensures r.Ok? ==> && r.value.Valid() && r.value.core.size == size
                      && r.value.errorMemBlock == NewMemBlock(blockId, size)
                      && r.value.input.None? && r.value.accumulated == Finite(0.0)
  {
    var core :- NewLossCore(size);
    var block := NewMemBlock(blockId, size);
    Ok(Mse(core.(errorOutput := Some(block)), block, None, Finite(0.0)))
  }

  /** `addLoss`: holds the input, scales the raw loss of its bunch by
      `0.5 / bunch_size` and adds that to the running loss, which it also
      returns.  A token of less than one pattern makes a bunch of zero and a
      non-finite loss. */
  function MseAddLoss(m: Mse, input: Token, target: Token, kernel: LossKernel): (r: Result<(Mse, Float)>)
    requires m.Valid()
    ensures r.Ok? <==> CheckPair(input, target).Ok?
    ensures r.Fatal? ==> r.failure == CheckPair(input, target).failure
    ensures r.Ok? ==>
            var b := BunchSize(input.usedSize, m.core.size);
            var (m', loss) := r.value;
            && loss == (if b > 0 then Finite(0.5 * kernel(input, target, m.core.size, b) / b as real) else NonFinite)
            && m' == m.(input := Some(input), accumulated := Add(m.accumulated, loss))
            && m'.Valid()
  {
    var _ :- CheckPair(input, target);
    var b := BunchSize(input.usedSize, m.core.size);
    var loss := Mul(Finite(kernel(input, target, m.core.size, b)), DivNat(Finite(0.5), b));
    Ok((m.(input := Some(input), accumulated := Add(m.accumulated, loss)), loss))
  }

  /** `computeGrandient` as written: holds the input (replacing it only
      when it is another token), and resizes the error block to
      `bunch_size` cells; the gradient kernel fills `size * bunch_size` of
      them.  Returns the error token. */
  function MseComputeGradientAsWritten(m: Mse, input: Token, target: Token): (r: Result<(Mse, Token)>)
    requires m.Valid()
    ensures r.Ok? <==> CheckPair(input, target).Ok?
    ensures r.Fatal? ==> r.failure == CheckPair(input, target).failure
    ensures r.Ok? ==>
            var (m', e) := r.value;
            && m'.Valid() && m'.input == Some(input) && m'.accumulated == m.accumulated
            && e == m'.errorMemBlock && e.id == m.errorMemBlock.id && e.code == MemBlock
            && e.usedSize == BunchSize(input.usedSize, m.core.size)
  {
    var _ :- CheckPair(input, target);
    var m1 := if m.input == Some(input) then m else m.(input := Some(input));
    var block := Resize(m.errorMemBlock, BunchSize(input.usedSize, m.core.size));
    var m2 := m1.(errorMemBlock := block, core := m1.core.(errorOutput := Some(block)));
    Ok((m2, block))
  }

  /** `computeGrandient` corrected: the error block is resized to the
      `size * bunch_size` cells the gradient occupies. */
  function MseComputeGradient(m: Mse, input: Token, target: Token): (r: Result<(Mse, Token)>)
    requires m.Valid()
    ensures r.Ok? <==> CheckPair(input, target).Ok?
    ensures r.Fatal? ==> r.failure == CheckPair(input, target).failure
    ensures r.Ok? ==>
            var (m', e) := r.value;
            && m'.Valid() && m'.input == Some(input) && m'.accumulated == m.accumulated
            && e == m'.errorMemBlock && e.id == m.errorMemBlock.id && e.code == MemBlock
            && e.usedSize == BunchSize(input.usedSize, m.core.size) * m.core.size
  {
    var _ :- CheckPair(input, target);
    var m1 := if m.input == Some(input) then m else m.(input := Some(input));
    var block := Resize(m.errorMemBlock, BunchSize(input.usedSize, m.core.size) * m.core.size);
    var m2 := m1.(errorMemBlock := block, core := m1.core.(errorOutput := Some(block)));
    Ok((m2, block))
  }

  /** The corrected gradient has the shape of the input whenever the input
      holds whole patterns, which the as-written one has only for
      `size == 1` (size 2, 4 cells: 2 instead of 4). */
  lemma MseGradientShape(m: Mse, input: Token, target: Token)
    requires m.Valid() && CheckPair(input, target).Ok?
    requires input.usedSize % m.core.size == 0
    ensures MseComputeGradient(m, input, target).value.1.usedSize == input.usedSize
    ensures MseComputeGradientAsWritten(m, input, target).value.1.usedSize == input.usedSize
            <==> m.core.size == 1 || input.usedSize == 0
  {
    var s, u := m.core.size, input.usedSize;
    var b := BunchSize(u, s);
    assert u == b * s;
    ScalingFixesOnlyByOne(b, s);
  }

  lemma ScalingFixesOnlyByOne(b: nat, s: nat)
    requires s >= 1
    ensures b * s == b <==> s == 1 || b == 0
  {
    if s >= 2 && b >= 1 {
      MulMonotone(2, s, b);
    }
  }

  /** `getAccumLoss`: the running sum, not divided by anything. */
  function MseGetAccumLoss(m: Mse): (r: Float)
    ensures r == m.accumulated
  {
    m.accumulated
  }

  /** `reset`: the running loss goes back to zero (and the backend zeroes
      the error block).  It does not call the base reset, so the error token
      stays held; the last input stays held too. */
  function MseReset(m: Mse): (r: Mse)
    requires m.Valid()
    ensures r.Valid() && r.accumulated == Finite(0.0)
    ensures r.core == m.core && r.errorMemBlock == m.errorMemBlock && r.input == m.input
  {
    m.(accumulated := Finite(0.0))
  }

  /** The tokens released by the destructor: the error token by the MSE
      destructor, then again by the base destructor, whose pointer is still
      set. */
  function MseReleasedOnDestroy(m: Mse): (r: seq<Token>)
    requires m.Valid()
    ensures r == [m.errorMemBlock, m.errorMemBlock]
  {
    [m.core.errorOutput.value] + ReleasedByBase(m.core)
  }

  // ---------------------------------------------------------------------
  // mean absolute error

  /** `MAELossFunction`: the running loss and the number of `addLoss`
      calls `N` since the last reset. */
  datatype Mae = Mae(core: LossCore, accumulated: Float, n: nat)

  function NewMae(size: nat): (r: Result<Mae>)
    ensures r.Fatal? <==> size == 0
    ensures r.Fatal? ==> r.failure == ErrorExit(128, ZeroSizeLoss)
    ensures r.Ok? ==> r.value == Mae(LossCore(size, None), Finite(0.0), 0)
  {
    var core :- NewLossCore(size);
    Ok(Mae(core, Finite(0.0), 0))
  }

  /** `addLoss`: the raw loss divided by `bunch_size` is added to the
      running loss and counted; it is also returned. */
  function MaeAddLoss(m: Mae, input: Token, target: Token, kernel: LossKernel): (r: Result<(Mae, Float)>)
    requires m.core.size > 0
    ensures r.Ok? <==> CheckPair(input, target).Ok?
    ensures r.Fatal? ==> r.failure == CheckPair(input, target).failure
    ensures r.Ok? ==>
            var b := BunchSize(input.usedSize, m.core.size);
            var (m', loss) := r.value;
            && loss == (if b > 0 then Finite(kernel(input, target, m.core.size, b) / b as real) else NonFinite)
            && m'.core == m.core
            && m'.accumulated == Add(m.accumulated, loss)
            && m'.n == m.n + 1
  {
    var _ :- CheckPair(input, target);
    var b := BunchSize(input.usedSize, m.core.size);
    var loss := DivNat(Finite(kernel(input, target, m.core.size, b)), b);
    Ok((Mae(m.core, Add(m.accumulated, loss), m.n + 1), loss))
  }

  /** `computeGradient`: a fresh memory block (`blockId`) of the input's
      used size becomes the held error token, replacing the previous one,
      and is returned. */
  function MaeComputeGradient(m: Mae, input: Token, target: Token, blockId: nat): (r: Result<(Mae, Token)>)
    requires m.core.size > 0
    ensures r.Ok? <==> CheckPair(input, target).Ok?
    ensures r.Fatal? ==> r.failure == CheckPair(input, target).failure
    ensures r.Ok? ==>
            var (m', e) := r.value;
            && e == NewMemBlock(blockId, input.usedSize)
            && m'.core == m.core.(errorOutput := Some(e))
            && m'.accumulated == m.accumulated && m'.n == m.n
  {
    var used :- CheckPair(input, target);
    var block := NewMemBlock(blockId, used);
    Ok((m.(core := m.core.(errorOutput := Some(block))), block))
  }

  /** `getAccumLoss`: the mean of the losses added since the last reset;
      non-finite before the first one. */
  function MaeGetAccumLoss(m: Mae): (r: Float)
    ensures m.n == 0 ==> r == NonFinite
    ensures m.n > 0 && m.accumulated.Finite? ==> r == Finite(m.accumulated.v / m.n as real)
    ensures m.accumulated.NonFinite? ==> r == NonFinite
  {
    DivNat(m.accumulated, m.n)
  }

  /** `reset`: the base reset releases the error token; the running loss
      and the count go back to zero. */
  function MaeReset(m: Mae): (r: Mae)
    ensures r == Mae(ResetCore(m.core), Finite(0.0), 0)
    ensures r.core.errorOutput.None? && r.core.size == m.core.size
  {
    Mae(ResetCore(m.core), Finite(0.0), 0)
  }

  /** The MAE destructor adds nothing to the base one. */
  function MaeReleasedOnDestroy(m: Mae): (r: seq<Token>)
    ensures r == (if m.core.errorOutput.Some? then [m.core.errorOutput.value] else [])
  {
    ReleasedByBase(m.core)
  }

  /** On whole patterns the MAE gradient and the corrected MSE gradient have
      the input's shape; the MAE block it creates is the one token its
      destructor then releases. */
  lemma GradientsAgreeOnShape(ms: Mse, ma: Mae, input: Token, target: Token, blockId: nat)
    requires ms.Valid() && ma.core.size == ms.core.size
    requires CheckPair(input, target).Ok? && input.usedSize % ms.core.size == 0
    ensures MaeComputeGradient(ma, input, target, blockId).Ok?
    ensures MseComputeGradient(ms, input, target).Ok?
    ensures var (ma', e) := MaeComputeGradient(ma, input, target, blockId).value;
            && e.usedSize == MseComputeGradient(ms, input, target).value.1.usedSize == input.usedSize
            && MaeReleasedOnDestroy(ma') == [e]
  {
    MseGradientShape(ms, input, target);
  }

  /** After a reset, an MSE loss still holds its error token, an MAE loss
      none. */
  lemma ResetsDifferOnErrorToken(m: Mse, a: Mae)
    requires m.Valid()
    ensures MseReset(m).core.errorOutput == Some(m.errorMemBlock)
    ensures MaeReset(a).core.errorOutput.None?
  {
  }

  // ---------------------------------------------------------------------
  // running losses over several calls

  datatype Sample = Sample(input: Token, target: Token)

  ghost predicate AllAccepted(samples: seq<Sample>)
  {
    forall j :: 0 <= j < |samples| ==> CheckPair(samples[j].input, samples[j].target).Ok?
  }

  ghost predicate AllWholeBunches(samples: seq<Sample>, size: nat)
  {
    forall j :: 0 <= j < |samples| ==> samples[j].input.usedSize >= size
  }

  function RunMae(m: Mae, samples: seq<Sample>, kernel: LossKernel): (r: Result<Mae>)
    requires m.core.size > 0
    ensures r.Ok? ==> r.value.core == m.core
    decreases |samples|
  {
    if samples == [] then Ok(m)
    else
      var (m1, _) :- MaeAddLoss(m, samples[0].input, samples[0].target, kernel);
      RunMae(m1, samples[1..], kernel)
  }

  function RunMse(m: Mse, samples: seq<Sample>, kernel: LossKernel): (r: Result<Mse>)
    requires m.Valid()
    ensures r.Ok? ==> r.value.Valid() && r.value.core == m.core
    decreases |samples|
  {
    if samples == [] then Ok(m)
    else
      var (m1, _) :- MseAddLoss(m, samples[0].input, samples[0].target, kernel);
      RunMse(m1, samples[1..], kernel)
  }

  /** Σ over the samples of `scale * raw / bunch_size`. */
  function ScaledSum(samples: seq<Sample>, size: nat, scale: real, kernel: LossKernel): real
    requires size > 0
    decreases |samples|
  {
    if samples == [] then 0.0
    else
      var s := samples[0];
      var b := BunchSize(s.input.usedSize, size);
      (if b > 0 then scale * kernel(s.input, s.target, size, b) / b as real else 0.0)
      + ScaledSum(samples[1..], size, scale, kernel)
  }

  /** MAE over accepted samples of at least one pattern each: the count
      grows by the number of samples and the running loss by the sum of
      their per-bunch losses. */
  lemma {:induction false} MaeAccumulates(m: Mae, samples: seq<Sample>, kernel: LossKernel)
    requires m.core.size > 0
    requires AllAccepted(samples) && AllWholeBunches(samples, m.core.size)
    ensures RunMae(m, samples, kernel).Ok?
    ensures RunMae(m, samples, kernel).value.n == m.n + |samples|
    ensures RunMae(m, samples, kernel).value.accumulated
            == Add(m.accumulated, Finite(ScaledSum(samples, m.core.size, 1.0, kernel)))
    decreases |samples|
  {
    if samples != [] {
      var s := samples[0];
      var b := BunchSize(s.input.usedSize, m.core.size);
      assert b > 0;
      var (m1, loss) := MaeAddLoss(m, s.input, s.target, kernel).value;
      assert AllAccepted(samples[1..]) && AllWholeBunches(samples[1..], m.core.size) by {
        forall j | 0 <= j < |samples[1..]| ensures samples[1..][j] == samples[j + 1] { }
      }
      MaeAccumulates(m1, samples[1..], kernel);
    }
  }

  /** From a fresh or reset MAE loss, `getAccumLoss` after k >= 1 such
      samples is the mean of their per-bunch losses. */
  lemma MaeReportsMean(m: Mae, samples: seq<Sample>, kernel: LossKernel)
    requires m.core.size > 0 && m.accumulated == Finite(0.0) && m.n == 0
    requires |samples| >= 1 && AllAccepted(samples) && AllWholeBunches(samples, m.core.size)
    ensures RunMae(m, samples, kernel).Ok?
    ensures MaeGetAccumLoss(RunMae(m, samples, kernel).value)
            == Finite(ScaledSum(samples, m.core.size, 1.0, kernel) / |samples| as real)
  {
    MaeAccumulates(m, samples, kernel);
  }

  /** MSE over accepted samples of at least one pattern each: the running
      loss grows by the sum of the half per-bunch losses, with no division
      by the number of calls. */
  lemma {:induction false} MseSumsWithoutAveraging(m: Mse, samples: seq<Sample>, kernel: LossKernel)
    requires m.Valid()
    requires AllAccepted(samples) && AllWholeBunches(samples, m.core.size)
    ensures RunMse(m, samples, kernel).Ok?
    ensures MseGetAccumLoss(RunMse(m, samples, kernel).value)
            == Add(m.accumulated, Finite(ScaledSum(samples, m.core.size, 0.5, kernel)))
    decreases |samples|
  {
    if samples != [] {
      var s := samples[0];
      var b := BunchSize(s.input.usedSize, m.core.size);
      assert b > 0;
      var (m1, loss) := MseAddLoss(m, s.input, s.target, kernel).value;
      assert AllAccepted(samples[1..]) && AllWholeBunches(samples[1..], m.core.size) by {
        forall j | 0 <= j < |samples[1..]| ensures samples[1..][j] == samples[j + 1] { }
      }
      MseSumsWithoutAveraging(m1, samples[1..], kernel);
    }
  }

  /** One accepted sample of less than one pattern makes the MAE running
      loss non-finite for the rest of the run. */
  lemma {:induction false} PartialPatternPoisonsMae(m: Mae, samples: seq<Sample>, kernel: LossKernel, j: nat)
    requires m.core.size > 0 && AllAccepted(samples)
    requires j < |samples| && samples[j].input.usedSize < m.core.size
    ensures RunMae(m, samples, kernel).Ok?
    ensures RunMae(m, samples, kernel).value.accumulated == NonFinite
    decreases |samples|
  {
    var s := samples[0];
    var (m1, loss) := MaeAddLoss(m, s.input, s.target, kernel).value;
    assert AllAccepted(samples[1..]) by {
      forall j' | 0 <= j' < |samples[1..]| ensures samples[1..][j'] == samples[j' + 1] { }
    }
    if j == 0 {
      assert BunchSize(s.input.usedSize, m.core.size) == 0;
      StaysNonFinite(m1, samples[1..], kernel);
    } else {
      assert samples[1..][j - 1] == samples[j];
      PartialPatternPoisonsMae(m1, samples[1..], kernel, j - 1);
    }
  }

  lemma {:induction false} StaysNonFinite(m: Mae, samples: seq<Sample>, kernel: LossKernel)
    requires m.core.size > 0 && AllAccepted(samples) && m.accumulated == NonFinite
    ensures RunMae(m, samples, kernel).Ok?
    ensures RunMae(m, samples, kernel).value.accumulated == NonFinite
    decreases |samples|
  {
    if samples != [] {
      var s := samples[0];
      var (m1, loss) := MaeAddLoss(m, s.input, s.target, kernel).value;
      assert AllAccepted(samples[1..]) by {
        forall j | 0 <= j < |samples[1..]| ensures samples[1..][j] == samples[j + 1] { }
      }
      StaysNonFinite(m1, samples[1..], kernel);
    }
  }
}
