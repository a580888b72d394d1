/** The bias component (`BiasANNComponent`).

    A bias component adds a shared `1 × output_size` weight vector to every
    pattern of the bunch.  It resolves that vector by name in a weights
    dictionary when it is built, passes the error through unchanged when
    back-propagating, and drives the weight matrix's update barrier when it
    updates.

    The dictionary maps names to matrices by pointer; the model keeps all
    matrices in an arena (`Registry.arena`) and the dictionary maps a name
    to an arena index, so that two components that resolve the same name
    share one matrix. */
module BiasComponent {
  import opened Results
  import opened Tokens
  import opened Connections
  import opened Blas

  datatype Registry = Registry(dict: map<string, nat>, arena: seq<Connections>)
  {
    predicate Valid()
    {
      && (forall n :: n in dict ==> dict[n] < |arena|)
      && (forall k :: 0 <= k < |arena| ==> arena[k].Valid())
    }
  }

  datatype Bias = Bias(
    name: string,
    weightsName: string,
    inputSize: nat,
    outputSize: nat,
    bunchSize: nat,
    input: Option<Token>,
    output: Token,
    error: Option<Token>,
    biasVector: Option<nat>,
    learningRate: real,
    momentum: real)
  {
    /** A built component has equal, non-zero sizes (what build checks). */
    predicate WellFormed()
    {
      biasVector.Some? ==> inputSize > 0 && inputSize == outputSize
    }

    /** Its bias vector is a 1 × output_size matrix of the registry. */
    predicate BuiltIn(reg: Registry)
    {
      && biasVector.Some?
      && biasVector.value < |reg.arena|
      && reg.arena[biasVector.value].numInputs == 1
      && reg.arena[biasVector.value].numOutputs == outputSize
    }
  }

  /** The constructor: unbuilt, no tokens but its own output token (`outputId`),
      `learning_rate = -1` (unset) and `momentum = 0`. */
  function NewBias(name: string, weightsName: string, outputId: nat): (c: Bias)
    ensures c.name == name && c.weightsName == weightsName
    ensures c.learningRate == -1.0 && c.momentum == 0.0
    ensures c.input.None? && c.error.None? && c.biasVector.None?
    ensures c.inputSize == 0 && c.outputSize == 0
    ensures c.output == NewMemBlock(outputId, 0)
    ensures c.WellFormed()
  {
    Bias(name, weightsName, 0, 0, 0, None, NewMemBlock(outputId, 0), None, None, -1.0, 0.0)
  }

  // ---------------------------------------------------------------------
  // build

  /** Registry after a successful build resolved `weightsName` to `id`:
      the name maps to `id`; `id` is the existing entry, or a new `1 ×
      outputSize` matrix appended to the arena; its reference count went up
      by exactly one and nothing else changed. */
  ghost predicate Resolved(reg: Registry, reg': Registry, weightsName: string, outputSize: nat, id: nat)
  {
    && reg'.Valid()
    && reg'.dict == reg.dict[weightsName := id]
    && id < |reg'.arena|
    && (forall k :: 0 <= k < |reg.arena| && k != id ==> k < |reg'.arena| && reg'.arena[k] == reg.arena[k])
    && (weightsName in reg.dict ==>
          && id == reg.dict[weightsName]
          && |reg'.arena| == |reg.arena|
          && reg'.arena[id].numReferences == reg.arena[id].numReferences + 1
          && reg'.arena[id] == reg.arena[id].(numReferences := reg'.arena[id].numReferences))
    && (weightsName !in reg.dict ==>
          && id == |reg.arena|
          && |reg'.arena| == |reg.arena| + 1
          && reg'.arena[id] == New(1, outputSize).(numReferences := 1))
  }

  /** `build`: validates the sizes, then reuses the dictionary's matrix
      under `weights_name` (which must be 1 × output_size) or creates and
      registers one, and counts one reference to it.  The base-class build
      is not part of this model; the sizes are taken as given. */
  function Build(c: Bias, inputSize: nat, outputSize: nat, reg: Registry): (r: Result<(Bias, Registry)>)
    requires reg.Valid()
    ensures inputSize == 0 || outputSize == 0 ==> r == Fatal(ErrorExit(141, UnknownSizes))
    ensures inputSize > 0 && outputSize > 0 && inputSize != outputSize
            ==> r == Fatal(ErrorExit(142, SizesMustBeEqual))
    ensures r.Ok? <==>
            && inputSize > 0 && inputSize == outputSize
            && (c.weightsName in reg.dict ==>
                  CheckInputOutputSizes(reg.arena[reg.dict[c.weightsName]], 1, outputSize))
    ensures r.Fatal? && inputSize > 0 && inputSize == outputSize
            ==> r == Fatal(ErrorExit(256, WrongWeightsShape))
    ensures r.Ok? ==>
            var (c', reg') := r.value;
            && c'.biasVector.Some?
            && c' == c.(inputSize := inputSize, outputSize := outputSize, biasVector := c'.biasVector)
            && c'.WellFormed() && c'.BuiltIn(reg')
            && Resolved(reg, reg', c.weightsName, outputSize, c'.biasVector.value)
  {
    if inputSize == 0 || outputSize == 0 then Fatal(ErrorExit(141, UnknownSizes))
    else if inputSize != outputSize then Fatal(ErrorExit(142, SizesMustBeEqual))
    else if c.weightsName in reg.dict then
      var id := reg.dict[c.weightsName];
      var w := reg.arena[id];
      if !CheckInputOutputSizes(w, 1, outputSize) then Fatal(ErrorExit(256, WrongWeightsShape))
      else
        var reg' := reg.(arena := reg.arena[id := CountReference(w)]);
        Ok((c.(inputSize := inputSize, outputSize := outputSize, biasVector := Some(id)), reg'))
    else
      var id := |reg.arena|;
      var reg' := Registry(reg.dict[c.weightsName := id], reg.arena + [CountReference(New(1, outputSize))]);
      Ok((c.(inputSize := inputSize, outputSize := outputSize, biasVector := Some(id)), reg'))
  }

  /** Building twice counts two references: a rebuild releases the previous
      bias vector's memory handle but never its update reference. */
  lemma RebuildCountsTwice(c: Bias, size: nat, reg: Registry)
    requires reg.Valid()
    requires Build(c, size, size, reg).Ok?
    ensures var (c1, reg1) := Build(c, size, size, reg).value;
            && Build(c1, size, size, reg1).Ok?
            && var (c2, reg2) := Build(c1, size, size, reg1).value;
            && c2.biasVector == c1.biasVector
            && reg2.arena[c2.biasVector.value].numReferences
               == (if c.weightsName in reg.dict then reg.arena[reg.dict[c.weightsName]].numReferences else 0) + 2
  {
    var (c1, reg1) := Build(c, size, size, reg).value;
    assert c1.weightsName == c.weightsName && c1.weightsName in reg1.dict;
  }

  // ---------------------------------------------------------------------
  // forward / backward

  /** `doForward`: rejects a null or non-memory-block token, holds the
      token as input, derives the bunch size from its used size and sizes
      the output token to `bunch_size * output_size`.  The numeric copy of
      the input plus the broadcast bias belongs to the backend. */
  function DoForward(c: Bias, t: Option<Token>): (r: Result<(Bias, Token)>)
    requires c.WellFormed()
    ensures c.biasVector.None? ==> r == Fatal(AssertionFailed(NotBuilt))
    ensures c.biasVector.Some? && (t.None? || t.value.code != MemBlock)
            ==> r == Fatal(ErrorExit(129, IncorrectInputToken))
    ensures r.Ok? <==> c.biasVector.Some? && t.Some? && t.value.code == MemBlock
    ensures r.Ok? ==>
            var (c', out) := r.value;
            && c'.input == t
            && out == c'.output
            && out.id == c.output.id && out.code == c.output.code
            && c'.bunchSize * c.inputSize <= t.value.usedSize < (c'.bunchSize + 1) * c.inputSize
            && out.usedSize == c'.bunchSize * c.outputSize
            && c' == c.(input := t, bunchSize := c'.bunchSize, output := out)
  {
    if c.biasVector.None? then Fatal(AssertionFailed(NotBuilt))
    else if t.None? || t.value.code != MemBlock then Fatal(ErrorExit(129, IncorrectInputToken))
    else
      var bunch := t.value.usedSize / c.inputSize;
      var out := Resize(c.output, bunch * c.outputSize);
      Ok((c.(input := t, bunchSize := bunch, output := out), out))
  }

  /** A token holding whole patterns comes out with the same used size (the
      bias component preserves the shape); a partial trailing pattern is
      dropped. */
  lemma ForwardKeepsWholeBunches(c: Bias, t: Token)
    requires c.WellFormed() && c.biasVector.Some?
    requires t.code == MemBlock && t.usedSize % c.inputSize == 0
    ensures DoForward(c, Some(t)).Ok?
    ensures DoForward(c, Some(t)).value.1.usedSize == t.usedSize
  {
    var bunch := DoForward(c, Some(t)).value.0.bunchSize;
    assert bunch == t.usedSize / c.inputSize;
    assert t.usedSize == bunch * c.inputSize + t.usedSize % c.inputSize;
  }

  /** `doBackprop`: a pass-through that remembers the error token for the
      update and hands the very same token upstream. */
  function DoBackprop(c: Bias, t: Option<Token>): (r: Result<(Bias, Token)>)
    ensures r.Ok? <==> t.Some? && t.value.code == MemBlock
    ensures r.Fatal? ==> r.failure == ErrorExit(129, IncorrectErrorToken)
    ensures r.Ok? ==> r.value.1 == t.value && r.value.0.error == t
    ensures r.Ok? ==> r.value.0 == c.(error := r.value.0.error)
  {
    if t.None? || t.value.code != MemBlock then Fatal(ErrorExit(129, IncorrectErrorToken))
    else Ok((c.(error := t), t.value))
  }

  // ---------------------------------------------------------------------
  // update

  /** The staging buffer right after the first contributor seeded it:
      w + momentum*(w - prev) with momentum, a plain copy of w without. */
  function SeededStaging(m: Connections, momentum: real): (s: seq<Weight>)
    requires m.Valid()
    ensures |s| == m.totalSize
  {
    if momentum > 0.0 then
      seq(m.totalSize, k requires 0 <= k < m.totalSize =>
            m.weights[k] + momentum * (m.weights[k] - m.prevWeights[k]))
    else m.weights
  }

  /** The momentum routine followed by a weight decay of 1 seeds exactly
      `SeededStaging`. */
  lemma MomentumSeed(m: Connections, momentum: real)
    requires m.Valid() && momentum > 0.0
    ensures ComputeWeightDecayOnPrevVector(ComputeMomentumOnPrevVector(m, momentum), 1.0).prevWeights
            == SeededStaging(m, momentum)
  {
    var p := ComputeWeightDecayOnPrevVector(ComputeMomentumOnPrevVector(m, momentum), 1.0).prevWeights;
    forall k | 0 <= k < m.totalSize
      ensures p[k] == SeededStaging(m, momentum)[k]
    {
      calc {
        p[k];
        1.0 * m.weights[k] + -momentum * (m.prevWeights[k] - m.weights[k]);
        m.weights[k] + momentum * (m.weights[k] - m.prevWeights[k]);
      }
    }
  }

  /** `-learning_rate / sqrt(references * bunch_size)`; `rsqrt` stands for
      `1/sqrtf`, whose value the model does not compute. */
  function NormLearnRate(learningRate: real, references: nat, bunchSize: nat, rsqrt: nat -> real): (r: real)
    ensures learningRate > 0.0 && rsqrt(references * bunchSize) > 0.0 ==> r < 0.0
    ensures learningRate == 0.0 || rsqrt(references * bunchSize) == 0.0 ==> r == 0.0
  {
    -rsqrt(references * bunchSize) * learningRate
  }

  /** The matrix side of `doUpdate`: beginUpdate; seed the staging buffer
      only on the first call of the cycle; add this component's scaled
      error sums (Σ over the bunch, computed by the backend) to it;
      endUpdate.  Returns the matrix and whether endUpdate swapped. */
  function UpdateProtocol(m: Connections, momentum: real, norm: real, errorSums: seq<real>): (r: (Connections, bool))
    requires m.Valid() && |errorSums| == m.totalSize
    ensures r.0.Valid()
    ensures r.0.numInputs == m.numInputs && r.0.numOutputs == m.numOutputs
    ensures r.0.numReferences == m.numReferences
    ensures r.1 <==> m.updateWeightsCalls + 1 == m.numReferences
    ensures var staged := Saxpy(norm, errorSums, if m.updateWeightsCalls == 0 then SeededStaging(m, momentum)
                                                 else m.prevWeights);
            && (r.1 ==> r.0.weights == staged && r.0.prevWeights == m.weights && r.0.updateWeightsCalls == 0)
            && (!r.1 ==> r.0.weights == m.weights && r.0.prevWeights == staged
                         && r.0.updateWeightsCalls == m.updateWeightsCalls + 1)
  {
    var m1 := BeginUpdate(m);
    var m2 :=
      if IsFirstUpdateCall(m1) then
        if momentum > 0.0 then
          ComputeWeightDecayOnPrevVector(ComputeMomentumOnPrevVector(m1, momentum), 1.0)
        else CopyToPrevVector(m1)
      else m1;
    assert m2.weights == m.weights;
    assert m.updateWeightsCalls == 0 && momentum > 0.0 ==> m2.prevWeights == SeededStaging(m, momentum) by {
      if m.updateWeightsCalls == 0 && momentum > 0.0 { MomentumSeed(m1, momentum); }
    }
    var m3 := m2.(prevWeights := Saxpy(norm, errorSums, m2.prevWeights));
    EndUpdate(m3)
  }

  /** `doUpdate`: needs `learning_rate > 0`; drives the barrier of the
      component's bias vector.  `errorSums` is Σ_b error[b, j] of the held
      error token; the component itself does not change.  After the
      assertion the source calls through the bias vector and then the error
      token without checking either for null. */
  function DoUpdate(c: Bias, reg: Registry, errorSums: seq<real>, rsqrt: nat -> real): (r: Result<Registry>)
    requires reg.Valid() && (c.biasVector.Some? ==> c.BuiltIn(reg))
    requires c.biasVector.Some? ==> |errorSums| == reg.arena[c.biasVector.value].totalSize
    ensures !(c.learningRate > 0.0) ==> r == Fatal(AssertionFailed(LearningRateNotSet))
    ensures c.learningRate > 0.0 && c.biasVector.None? ==> r == Fatal(NullDereference(NotBuilt))
    ensures c.learningRate > 0.0 && c.biasVector.Some? && c.error.None? ==> r == Fatal(NullDereference(NoErrorToken))
    ensures r.Ok? <==> c.learningRate > 0.0 && c.biasVector.Some? && c.error.Some?
    ensures r.Ok? ==>
            var id := c.biasVector.value;
            var m := reg.arena[id];
            && r.value.Valid()
            && r.value.dict == reg.dict
            && |r.value.arena| == |reg.arena|
            && (forall k :: 0 <= k < |reg.arena| && k != id ==> r.value.arena[k] == reg.arena[k])
            && r.value.arena[id] ==
               UpdateProtocol(m, c.momentum, NormLearnRate(c.learningRate, m.numReferences, c.bunchSize, rsqrt),
                              errorSums).0
  {
    if !(c.learningRate > 0.0) then Fatal(AssertionFailed(LearningRateNotSet))
    else if c.biasVector.None? then Fatal(NullDereference(NotBuilt))
    else if c.error.None? then Fatal(NullDereference(NoErrorToken))
    else
      var id := c.biasVector.value;
      var m := reg.arena[id];
      var (m', _) := UpdateProtocol(m, c.momentum, NormLearnRate(c.learningRate, m.numReferences, c.bunchSize, rsqrt),
                                    errorSums);
      Ok(reg.(arena := reg.arena[id := m']))
  }

  /** One component's contribution to a training step. */
  datatype Contribution = Contribution(momentum: real, norm: real, errorSums: seq<real>)

  ghost predicate FitsMatrix(cs: seq<Contribution>, m: Connections)
  {
    forall n :: 0 <= n < |cs| ==> |cs[n].errorSums| == m.totalSize
  }

  /** The components of a step updating one matrix in turn. */
  function RunUpdates(m: Connections, cs: seq<Contribution>): (r: Connections)
    requires m.Valid() && FitsMatrix(cs, m)
    ensures r.Valid() && r.numInputs == m.numInputs && r.numOutputs == m.numOutputs
    ensures r.numReferences == m.numReferences
    decreases |cs|
  {
    if cs == [] then m
    else
      var m1 := UpdateProtocol(m, cs[0].momentum, cs[0].norm, cs[0].errorSums).0;
      RunUpdates(m1, cs[1..])
  }

  /** `base` with every contribution added in turn. */
  function AddAll(base: seq<real>, cs: seq<Contribution>): (r: seq<real>)
    requires forall n :: 0 <= n < |cs| ==> |cs[n].errorSums| == |base|
    ensures |r| == |base|
    decreases |cs|
  {
    if cs == [] then base
    else AddAll(Saxpy(cs[0].norm, cs[0].errorSums, base), cs[1..])
  }

  /** Mid-cycle, the live weights stay put while the remaining contributions
      accumulate in the staging buffer; the last one swaps. */
  lemma {:induction false} RemainingUpdatesAccumulate(m: Connections, cs: seq<Contribution>)
    requires m.Valid() && FitsMatrix(cs, m)
    requires |cs| >= 1 && m.updateWeightsCalls >= 1 && m.updateWeightsCalls + |cs| == m.numReferences
    ensures RunUpdates(m, cs).weights == AddAll(m.prevWeights, cs)
    ensures RunUpdates(m, cs).prevWeights == m.weights
    ensures RunUpdates(m, cs).updateWeightsCalls == 0
    decreases |cs|
  {
    var m1 := UpdateProtocol(m, cs[0].momentum, cs[0].norm, cs[0].errorSums).0;
    if |cs| == 1 {
      assert cs[1..] == [];
    } else {
      assert FitsMatrix(cs[1..], m1);
      RemainingUpdatesAccumulate(m1, cs[1..]);
    }
  }

  /** A whole training step over a matrix with K >= 1 references: K
      contributions swap the buffers exactly once.  The new live weights are
      the staging buffer seeded once, from the first contributor's
      momentum, plus every contribution; the old live weights become the
      staging buffer; and the counter is back at zero. */
  lemma FullStepSeedsOnceAndSwapsOnce(m: Connections, cs: seq<Contribution>)
    requires m.Valid() && FitsMatrix(cs, m)
    requires m.updateWeightsCalls == 0 && m.numReferences == |cs| >= 1
    ensures RunUpdates(m, cs).weights == AddAll(SeededStaging(m, cs[0].momentum), cs)
    ensures RunUpdates(m, cs).prevWeights == m.weights
    ensures RunUpdates(m, cs).updateWeightsCalls == 0
  {
    var m1 := UpdateProtocol(m, cs[0].momentum, cs[0].norm, cs[0].errorSums).0;
    var seeded := Saxpy(cs[0].norm, cs[0].errorSums, SeededStaging(m, cs[0].momentum));
    if |cs| == 1 {
      assert cs[1..] == [];
    } else {
      assert FitsMatrix(cs[1..], m1);
      RemainingUpdatesAccumulate(m1, cs[1..]);
    }
  }

  /** The worked example of a single unshared bias: learning rate 0.1, no
      momentum, one pattern, error 0.1, 1/sqrt(1) = 1: every bias moves by
      -0.01 at the swap. */
  lemma SingleBiasStep(m: Connections, rsqrt: nat -> real)
    requires m.Valid() && m.numReferences == 1 && m.updateWeightsCalls == 0
    requires rsqrt(1) == 1.0
    ensures var norm := NormLearnRate(0.1, 1, 1, rsqrt);
            var r := UpdateProtocol(m, 0.0, norm, seq(m.totalSize, _ => 0.1));
            && r.1
            && forall k :: 0 <= k < m.totalSize ==> r.0.weights[k] == m.weights[k] - 0.01
  {
  }

  // ---------------------------------------------------------------------
  // reset / clone / copyWeights / options

  /** `reset`: drops the input and error tokens.  Zeroing the output's
      numeric contents is the backend's. */
  function Reset(c: Bias): (r: Bias)
    ensures r.input.None? && r.error.None?
    ensures r == c.(input := None, error := None)
  {
    c.(input := None, error := None)
  }

  /** `clone`: a fresh unbuilt component with the same names and
      hyper-parameters but no bias vector (it must be built or given
      weights again).  `outputId` is its new output token. */
  function Clone(c: Bias, outputId: nat): (r: Bias)
    ensures r.name == c.name && r.weightsName == c.weightsName
    ensures r.learningRate == c.learningRate && r.momentum == c.momentum
    ensures r.biasVector.None? && r.input.None? && r.error.None?
    ensures r.inputSize == 0 && r.outputSize == 0 && r.output.id == outputId
  {
    NewBias(c.name, c.weightsName, outputId).(learningRate := c.learningRate, momentum := c.momentum)
  }

  /** `copyWeights`: publishes the component's bias vector under its
      weights name; fails when unbuilt or when the name already maps to
      another matrix. */
  function CopyWeights(c: Bias, reg: Registry): (r: Result<Registry>)
    requires reg.Valid() && (c.biasVector.Some? ==> c.biasVector.value < |reg.arena|)
    ensures c.biasVector.None? ==> r == Fatal(ErrorExit(100, NotBuilt))
    ensures r.Ok? <==> c.biasVector.Some? && (c.weightsName in reg.dict ==> reg.dict[c.weightsName] == c.biasVector.value)
    ensures r.Fatal? && c.biasVector.Some? ==> r == Fatal(ErrorExit(101, WeightsNotShared))
    ensures r.Ok? ==> r.value.Valid() && r.value.arena == reg.arena
    ensures r.Ok? ==> r.value.dict == reg.dict[c.weightsName := c.biasVector.value]
  {
    if c.biasVector.None? then Fatal(ErrorExit(100, NotBuilt))
    else if c.weightsName in reg.dict && reg.dict[c.weightsName] != c.biasVector.value then
      Fatal(ErrorExit(101, WeightsNotShared))
    else Ok(reg.(dict := reg.dict[c.weightsName := c.biasVector.value]))
  }

  const LearningRateKey: string := "learning_rate"
  const MomentumKey: string := "momentum"

  /** `setOption`: an unknown key is ignored. */
  function SetOption(c: Bias, key: string, value: real): (r: Bias)
    ensures key == LearningRateKey ==> r == c.(learningRate := value)
    ensures key == MomentumKey ==> r == c.(momentum := value)
    ensures key != LearningRateKey && key != MomentumKey ==> r == c
  {
    if key == LearningRateKey then c.(learningRate := value)
    else if key == MomentumKey then c.(momentum := value)
    else c
  }

  function HasOption(c: Bias, key: string): (has: bool)
    ensures has <==> key == LearningRateKey || key == MomentumKey
  {
    key == LearningRateKey || key == MomentumKey
  }

  /** `getOption`: an unknown key falls through to the base component, which
      handles none here. */
  function GetOption(c: Bias, key: string): (r: Result<real>)
    ensures key == LearningRateKey ==> r == Ok(c.learningRate)
    ensures key == MomentumKey ==> r == Ok(c.momentum)
    ensures key != LearningRateKey && key != MomentumKey ==> r == Fatal(ErrorExit(128, UnknownOption))
  {
    if key == LearningRateKey then Ok(c.learningRate)
    else if key == MomentumKey then Ok(c.momentum)
    else Fatal(ErrorExit(128, UnknownOption))
  }

  /** The three accessors agree: exactly the keys `hasOption` reports can be
      read back, and reading one returns what was last set. */
  lemma OptionsAgree(c: Bias, key: string, value: real)
    ensures HasOption(c, key) <==> GetOption(c, key).Ok?
    ensures HasOption(c, key) ==> GetOption(SetOption(c, key, value), key) == Ok(value)
    ensures !HasOption(c, key) ==> SetOption(c, key, value) == c
  {
  }

  // ---------------------------------------------------------------------
  // Life cycle

  /** A clone of a built component, built at the same size in the registry
      its original left behind, shares the original's bias vector: the name
      resolves to the same matrix and one more reference is counted. */
  lemma CloneSharesWeights(c: Bias, size: nat, reg: Registry, outputId: nat)
    requires reg.Valid() && Build(c, size, size, reg).Ok?
    ensures var (c1, reg1) := Build(c, size, size, reg).value;
            && Build(Clone(c1, outputId), size, size, reg1).Ok?
            && var (c2, reg2) := Build(Clone(c1, outputId), size, size, reg1).value;
            && c2.biasVector == c1.biasVector
            && reg2.dict == reg1.dict
            && reg2.arena[c2.biasVector.value].numReferences == reg1.arena[c1.biasVector.value].numReferences + 1
            && c2.learningRate == c.learningRate && c2.momentum == c.momentum
  {
    var (c1, reg1) := Build(c, size, size, reg).value;
    var cl := Clone(c1, outputId);
    assert cl.weightsName == c.weightsName && cl.weightsName in reg1.dict;
    assert reg1.dict[cl.weightsName] == c1.biasVector.value;
  }

  /** After a build the dictionary already maps the weights name to the
      bias vector, so copyWeights succeeds and changes nothing. */
  lemma BuildThenCopyWeights(c: Bias, size: nat, reg: Registry)
    requires reg.Valid() && Build(c, size, size, reg).Ok?
    ensures var (c1, reg1) := Build(c, size, size, reg).value;
            CopyWeights(c1, reg1) == Ok(reg1)
  {
    var (c1, reg1) := Build(c, size, size, reg).value;
    assert reg1.dict[c1.weightsName := c1.biasVector.value] == reg1.dict;
  }

  /** Reset and backprop leave the bias vector alone, so a built component
      stays built; backprop on a built component with a learning rate makes
      the next update go through, and a reset makes it fail on the missing
      error token. */
  lemma BackpropAndResetAroundUpdate(c: Bias, reg: Registry, t: Token, errorSums: seq<real>, rsqrt: nat -> real)
    requires reg.Valid() && c.WellFormed() && c.BuiltIn(reg) && c.learningRate > 0.0
    requires t.code == MemBlock
    requires |errorSums| == reg.arena[c.biasVector.value].totalSize
    ensures Reset(c).WellFormed() && Reset(c).BuiltIn(reg)
    ensures DoBackprop(c, Some(t)).Ok?
    ensures var c' := DoBackprop(c, Some(t)).value.0;
            && c'.WellFormed() && c'.BuiltIn(reg)
            && DoUpdate(c', reg, errorSums, rsqrt).Ok?
            && DoUpdate(Reset(c'), reg, errorSums, rsqrt) == Fatal(NullDereference(NoErrorToken))
  {
  }
}
