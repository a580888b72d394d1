# Weight sharing, components, activations and losses of april-ann, in Dafny

This project models the bookkeeping core of the april-ann neural-network
runtime: the shared weight matrix (`Connections`) with its reference-counted
update barrier and its dense-matrix load/store layout; the bias component's
build, forward, backprop, update, reset, clone, copy-weights and options; the
activation functions (selection by type name, the softmax accelerator size
lock, the linear no-ops, the binary-sampling sweep); and the MSE and MAE loss
accumulators.  The numeric kernels of the backend are parameters of the
model; the model states which kernel each operation calls, on what, and what
state and sizes it leaves behind.  Every fatal end is a `Fatal` result: an
`ERROR_EXIT` carries its exit code, a failed `assert` carries only its reason
(asserts are taken to be enabled), and in the bias update the calls through
the unchecked bias-vector and error-token pointers are a `NullDereference`.
Elsewhere a null token or matrix handed in by a caller cannot be expressed
(see "Left out").

Files (one module each):

- `results.dfy` — `Result`, `Option`, the failure reasons and exit codes.
- `strides.dfy` — the flat-offset map `minor + major*stride` and its facts.
- `tokens.dfy` — memory-block tokens: identity, code, used size.
- `float_model.dfy` — single-precision values as reals plus one non-finite value.
- `blas.dfy` — host `saxpy` and `sscal` in exact arithmetic.
- `connections.dfy` — `Connections`: construction, size check, barrier, momentum staging, randomisation, clone, scale.
- `weight_layout.dfy` — `loadWeights` / `copyWeightsTo` and their size guard.
- `bias_component.dfy` — `BiasANNComponent` over a name-keyed registry of matrices.
- `activation.dfy` — activation-function selection, softmax lock, derivatives, clone.
- `binary_sampling.dfy` — the binary-sampling activation, as written and corrected.
- `loss_functions.dfy` — `LossFunction`, `MSELossFunction`, `MAELossFunction`.

The weights dictionary maps names to matrices by pointer.  Here the matrices
live in an arena (`Registry.arena`) and the dictionary maps a name to an arena
index, so two components that resolve the same name share one matrix.

Three behaviours of the code worth noting:

- An accelerator request for binary sampling only prints an error and then
  runs the host loop; it does not stop.
- The softmax reduction buffers hold `(ceilingPowerOfTwo(n) >> 1) * max_bunch_size`
  elements, half the next power of two, per bunch slot.
- A binary-sampling clone copies the generator in its current state, so a
  clone reproduces the original's draws rather than diverging from them.

## Model

| member | source | states |
|---|---|---|
| Connections.New | packages/ann/ann_base/c_src/connection.cc:30-40 | a new matrix is num_inputs × num_outputs with total_size = num_inputs*num_outputs, both buffers of that size and both counters 0 |
| Connections.CheckInputOutputSizes | packages/ann/ann_base/c_src/connection.cc:47-59 | true exactly when both dimensions equal the stored ones; it leaves the matrix untouched |
| Connections.CountReference | packages/ann/ann_base/c_src/connection.cc:61-63 | num_references rises by exactly one; nothing else changes |
| Connections.BeginUpdate | packages/ann/ann_base/c_src/connection.cc:69-71 | update_weights_calls rises by exactly one; nothing else changes |
| Connections.IsFirstUpdateCall | packages/ann/ann_base/c_src/connection.cc:84-86 | holds exactly when update_weights_calls == 1 |
| Connections.EndUpdate | packages/ann/ann_base/c_src/connection.cc:73-82 | when calls == num_references it swaps the buffers, resets calls to 0 and reports true; otherwise it reports false and changes nothing |
| Connections.ComputeMomentumOnPrevVector | packages/ann/ann_base/c_src/connection.cc:88-106 | every staging cell becomes -momentum*(prev - w); live weights and counters are kept |
| Connections.ComputeWeightDecayOnPrevVector | packages/ann/ann_base/c_src/connection.cc:108-118 | every staging cell becomes decay*w + prev; live weights and counters are kept |
| Connections.CopyToPrevVector | packages/ann/ann_base/c_src/connection.cc:124-129 | the staging buffer becomes a copy of the live weights |
| Connections.Clone | packages/ann/ann_base/c_src/connection.cc:255-269 | same shape, copies of both buffers, counters back at zero |
| Connections.Scale | packages/ann/ann_base/c_src/connection.cc:271-276 | both buffers multiplied cell by cell by alpha; shape and counters kept |
| Connections.ScaleComposes | packages/ann/ann_base/c_src/connection.cc:271-276 | scaling twice is scaling by the product, and scaling by 1 is the identity |
| Connections.RandomizeWeights | packages/ann/ann_base/c_src/connection.cc:149-167 | fails its assertion unless both bounds lie outside the near-zero band; otherwise weight (i, j) receives draw j*num_inputs + i, output-major, and the staging buffer equals the weights |
| Connections.RandomizeOutput | packages/ann/ann_base/c_src/connection.cc:160-165 | one pass of the inner loop: every weight of output j receives its draw in both buffers, extending the cells already randomised |
| Connections.RandomizeWeightsAtColumn | packages/ann/ann_base/c_src/connection.cc:169-187 | only cells col + i*num_outputs change, receiving draws 0, 1, ... in both buffers; every other cell of both buffers keeps its value |
| Connections.PairsBeforeLastDoNotSwap | packages/ann/ann_base/c_src/connection.cc:69-82 | begin/end pairs before the last referencing component never swap and only count calls |
| Connections.RemainingPairsSwapOnce | packages/ann/ann_base/c_src/connection.cc:69-82 | the pairs that complete a cycle swap exactly once, at the last end, and leave calls at 0 |
| Connections.FullCycleSwapsOnce | packages/ann/ann_base/c_src/connection.cc:61-82 | with K >= 1 references, K begin/end pairs from a fresh cycle swap exactly once, at the K-th end, and leave calls at 0 |
| WeightLayout.MinSizeCoversCell | packages/ann/ann_base/c_src/connection.cc:210-218 | every cell first + j*column_size + i read or written for weight (i, j) lies below the needed size |
| WeightLayout.MinSizeCoversAll | packages/ann/ann_base/c_src/connection.cc:210-218 | the same for all weights at once: a matrix of the needed size is never indexed out of bounds |
| WeightLayout.MinSizeIsTight | packages/ann/ann_base/c_src/connection.cc:210-218 | for any non-empty shape and any column size the last cell touched is exactly the last cell of the needed size, so no smaller size is safe |
| WeightLayout.SourceMinSizeAgreesWithoutGaps | packages/ann/ann_base/c_src/connection.cc:193-196 | when column_size <= num_inputs the source's guard is at least the needed size, and equal to it when column_size == num_inputs |
| WeightLayout.MinSizeExamples | packages/ann/ann_base/c_src/connection.cc:193-218 | with no inputs nothing is touched and the needed size is 0; a 2×2 matrix with column size 1 touches only cells 0..2 and needs 3 |
| WeightLayout.SourceMinSizeGap | packages/ann/ann_base/c_src/connection.cc:193-196 | with gaps, the source's guard plus num_inputs + num_outputs equals the needed size plus column_size |
| WeightLayout.SourceGuardAdmitsOutOfBounds | packages/ann/ann_base/c_src/connection.cc:193-199 | for num_inputs < column_size < num_inputs + num_outputs a matrix of exactly the guard's size passes it, yet the last weight's cell lies at or beyond its end |
| WeightLayout.SourceGuardCounterexample | packages/ann/ann_base/c_src/connection.cc:193-199 | a 2×2 matrix stored with column size 3 passes the guard with 4 cells and has cell 4 read |
| WeightLayout.SourceMinSize | packages/ann/ann_base/c_src/connection.cc:193-196 | the source's guard: total_size + first when column_size <= num_inputs, and otherwise num_outputs cells short of total_size + (column_size - num_inputs)*num_outputs + first |
| WeightLayout.SourceGuardRejectsCoveringMatrix | packages/ann/ann_base/c_src/connection.cc:193-199 | for column_size > num_inputs + num_outputs the source's guard exceeds the needed size, so a matrix holding every touched cell exits 24 |
| WeightLayout.SourceGuardRejectionExample | packages/ann/ann_base/c_src/connection.cc:193-199 | a 1×2 matrix with column size 5 touches cells 0 and 5 only, needs 6 cells, and the guard asks for 8 |
| WeightLayout.LoadCells | packages/ann/ann_base/c_src/connection.cc:205-219 | the loop nest: w[j + i*num_outputs] = d[first + j*column_size + i] and the staging buffer likewise from the old matrix; returns first + num_outputs*column_size |
| WeightLayout.CopyCells | packages/ann/ann_base/c_src/connection.cc:237-251 | the loop nest: each touched cell receives its weight from either buffer, every other cell keeps its value; returns the same end position |
| WeightLayout.LoadWeightsAsWritten | packages/ann/ann_base/c_src/connection.cc:189-220 | as written: exit 24 exactly when the source's guard exceeds the data matrix, then 128 when a matrix is not simple, otherwise the loop nest with the old matrix defaulting to the data matrix |
| WeightLayout.CopyWeightsToAsWritten | packages/ann/ann_base/c_src/connection.cc:222-252 | as written: the source's guard and the simplicity check, then the copy loop nest |
| WeightLayout.LoadWeights | packages/ann/ann_base/c_src/connection.cc:189-220 | corrected guard: exit 24 when the matrix is smaller than the needed size, 128 when a matrix is not simple; otherwise w[j + i*num_outputs] = d[first + j*column_size + i] and the staging buffer likewise from the old matrix, which defaults to the data matrix; returns first + num_outputs*column_size |
| WeightLayout.CopyWeightsTo | packages/ann/ann_base/c_src/connection.cc:222-252 | corrected guard and the simplicity check; writes both buffers with the inverse mapping, leaves all other cells alone and returns the same end position |
| WeightLayout.LoadThenCopyReproducesCells | packages/ann/ann_base/c_src/connection.cc:189-252 | loading from d and copying into e at the same offset and column size puts d's value into every touched cell of e and leaves the rest of e alone |
| WeightLayout.LoadThenCopyRoundTrip | packages/ann/ann_base/c_src/connection.cc:189-252 | loading from d and copying back into d reproduces d exactly |
| WeightLayout.CopyThenLoadRoundTrip | packages/ann/ann_base/c_src/connection.cc:189-252 | with column_size >= num_inputs, copying the weights out and loading them back restores them |
| BiasComponent.NewBias | packages/ann/ann_base/c_src/bias_component.cc:27-33 | a new component has learning_rate -1, momentum 0, no input or error token, no bias vector and a fresh output token |
| BiasComponent.Build | packages/ann/ann_base/c_src/bias_component.cc:161-194 | exit 141 on a zero size, 142 on unequal sizes, 256 when the dictionary's matrix is not 1 × output_size; otherwise the name resolves to the existing matrix or to a new 1 × output_size one appended to the arena, the dictionary maps the name to the bias vector, its reference count rises by exactly one and nothing else changes |
| BiasComponent.RebuildCountsTwice | packages/ann/ann_base/c_src/bias_component.cc:175-192 | building twice resolves the same matrix and counts two references: build never decrements |
| BiasComponent.DoForward | packages/ann/ann_base/c_src/bias_component.cc:41-73 | fails its assertion when unbuilt, exits 129 on a null or non-memory-block token; otherwise holds the input, bunch_size is the number of whole patterns in it and the output is resized to bunch_size*output_size |
| BiasComponent.ForwardKeepsWholeBunches | packages/ann/ann_base/c_src/bias_component.cc:52-55 | an input of whole patterns gives an output of the same used size |
| BiasComponent.DoBackprop | packages/ann/ann_base/c_src/bias_component.cc:76-86 | exits 129 on a wrong token; otherwise records the token as the error and returns that very token, changing nothing else |
| BiasComponent.MomentumSeed | packages/ann/ann_base/c_src/bias_component.cc:99-106 | the momentum routine followed by a weight decay of 1 seeds the staging buffer with w + momentum*(w - prev) |
| BiasComponent.UpdateProtocol | packages/ann/ann_base/c_src/bias_component.cc:92-125 | begin, seed only on the first call of the cycle, add norm*Σerror to the staging buffer, end: at the last contributor the staged weights become live, otherwise the live weights stay and the counter rises |
| BiasComponent.NormLearnRate | packages/ann/ann_base/c_src/bias_component.cc:110-114 | the normalised rate -learning_rate/sqrt(references*bunch_size) is negative for a positive learning rate and a positive root, so the step goes against the error |
| BiasComponent.DoUpdate | packages/ann/ann_base/c_src/bias_component.cc:88-126 | fails its assertion unless learning_rate > 0; then dereferences null when unbuilt or when no error token is held; otherwise only the component's own matrix changes, by the protocol above with norm = -learning_rate/sqrt(references*bunch_size) |
| BiasComponent.RemainingUpdatesAccumulate | packages/ann/ann_base/c_src/bias_component.cc:88-126 | mid-cycle the live weights stay put while the remaining contributions accumulate in the staging buffer; the last one swaps |
| BiasComponent.FullStepSeedsOnceAndSwapsOnce | packages/ann/ann_base/c_src/bias_component.cc:88-126 | K contributions to a matrix with K references seed once, swap once, leave the counter at 0, and make the live weights the seeded buffer plus every contribution |
| BiasComponent.SingleBiasStep | packages/ann/ann_base/c_src/bias_component.cc:110-125 | an unshared bias with learning rate 0.1, no momentum, one pattern and error 0.1 moves every bias by -0.01 at the swap |
| BiasComponent.Reset | packages/ann/ann_base/c_src/bias_component.cc:128-134 | input and error tokens are dropped; nothing else changes |
| BiasComponent.Clone | packages/ann/ann_base/c_src/bias_component.cc:136-142 | the clone has the same names, learning rate and momentum but is unbuilt, holds no tokens and has no bias vector |
| BiasComponent.CopyWeights | packages/ann/ann_base/c_src/bias_component.cc:196-205 | exit 100 when unbuilt, 101 when the name maps to a different matrix; otherwise the name maps to the bias vector afterwards and the arena is unchanged |
| BiasComponent.SetOption | packages/ann/ann_base/c_src/bias_component.cc:144-147 | "learning_rate" and "momentum" set their field; any other key changes nothing |
| BiasComponent.HasOption | packages/ann/ann_base/c_src/bias_component.cc:149-153 | true exactly for "learning_rate" and "momentum" |
| BiasComponent.GetOption | packages/ann/ann_base/c_src/bias_component.cc:155-159 | returns the field for the two keys; any other key reaches the base class and is fatal |
| BiasComponent.CloneSharesWeights | packages/ann/ann_base/c_src/bias_component.cc:136-194 | a clone of a built component, built at the same size, resolves the same matrix, counts one more reference and keeps the hyper-parameters |
| BiasComponent.BuildThenCopyWeights | packages/ann/ann_base/c_src/bias_component.cc:161-205 | after a build, copyWeights succeeds and leaves the registry as it is |
| BiasComponent.BackpropAndResetAroundUpdate | packages/ann/ann_base/c_src/bias_component.cc:76-134 | reset and backprop keep a component built; after backprop an update with a learning rate succeeds, after a reset it dereferences the missing error token |
| BiasComponent.OptionsAgree | packages/ann/ann_base/c_src/bias_component.cc:144-159 | exactly the keys hasOption reports can be read, and reading one after setting it returns the value set |
| Activation.CStringPrefix | packages/ann/activation_function/c_src/activation_function.cc:216-220 | the part of a C string that strcmp compares: the prefix before the first NUL |
| Activation.ByTypeString | packages/ann/activation_function/c_src/activation_function.cc:215-223 | "inputs" and "linear" select Linear, "logistic" Logistic, "tanh" Tanh, "softmax" a fresh Softmax; any other name exits 256 naming the type |
| Activation.ByConstString | packages/ann/activation_function/c_src/activation_function.cc:225-233 | the same selection over the whole counted string; any other name exits 256 |
| Activation.OverloadsAgree | packages/ann/activation_function/c_src/activation_function.cc:215-233 | both overloads select the same function for the same name and fail with the same code; a name without NUL is read identically by both |
| Activation.Clone | packages/ann/activation_function/c_src/activation_function.cc:142-144 | the clone is the same kind of function; a softmax clone is unlocked (size 0) with no reduction buffers |
| Activation.CloneIsFreshSelection | packages/ann/activation_function/c_src/activation_function.cc:93-95 | a clone is exactly what selecting the function by its type name yields, a new instance |
| Activation.CeilingPowerOfTwo | packages/ann/activation_function/c_src/activation_function.cc:110 | a power of two at least n whose half is below n |
| Activation.ReductionSize | packages/ann/activation_function/c_src/activation_function.cc:110 | for n >= 2 units, a power of two h with h < n <= 2h; 0 for fewer |
| Activation.SoftmaxLock | packages/ann/activation_function/c_src/activation_function.cc:103-119 | on the accelerator the first call locks size = units_size and sizes three buffers to ReductionSize(units_size)*max_bunch_size; a later call at another size exits 128; the host path and the other variants never touch the state |
| Activation.ApplyActivation | packages/ann/activation_function/c_src/activation_function.cc:37-151 | the lock above, then the variant's kernel on the units, their size, the configuration and the accelerator flag (softmax also on its reduction buffers); Linear leaves the units unchanged |
| Activation.MultiplyDerivatives | packages/ann/activation_function/c_src/activation_function.cc:47-157 | logistic and softmax call the logistic derivative routine, tanh its own, each with the configuration and accelerator flag; Linear leaves the errors unchanged |
| Activation.SoftmaxDerivativeIsLogistic | packages/ann/activation_function/c_src/activation_function.cc:129-140 | the softmax derivative is the logistic derivative in every softmax state |
| Activation.LockedSoftmaxAcceptsOnlyItsSize | packages/ann/activation_function/c_src/activation_function.cc:107-119 | a locked softmax accepts a run of accelerator calls exactly when every call has the locked size, and stays unchanged |
| Activation.FirstSizeLocksSoftmax | packages/ann/activation_function/c_src/activation_function.cc:93-119 | a fresh softmax locks to its first non-zero accelerator size: the run succeeds exactly when every later call repeats it |
| BinarySampling.Clone | packages/ann/activation_function/c_src/activation_function.cc:193-197 | the clone's generator is a copy in the same state |
| BinarySampling.SweepUnit | packages/ann/activation_function/c_src/activation_function.cc:186-189 | the corrected inner loop: element b of unit i gets its own draw; every other slot is untouched |
| BinarySampling.BunchSweep | packages/ann/activation_function/c_src/activation_function.cc:186-190 | the corrected sweep: every element (i, b) of the current bunch gets value of draw i*cur_bunch_size + b and its old contents; all other slots untouched |
| BinarySampling.RewriteSlot | packages/ann/activation_function/c_src/activation_function.cc:187-189 | the inner loop as written: one slot is rewritten cur_bunch_size times in a chain of draws; every other slot is untouched |
| BinarySampling.DiagonalSweep | packages/ann/activation_function/c_src/activation_function.cc:186-190 | the sweep as written: only slot i*(max_bunch_size+1) of each unit changes, rewritten cur_bunch_size times in a chain |
| BinarySampling.ApplyActivationAsWritten | packages/ann/activation_function/c_src/activation_function.cc:174-191 | as written: the accelerator flag only warns; the diagonal slots are resampled from their own logistic; draws advance by units_size*cur_bunch_size |
| BinarySampling.RandomizeAsWritten | packages/ann/activation_function/c_src/activation_function.cc:199-211 | as written: the diagonal slots receive the last of their cur_bunch_size uniform draws |
| BinarySampling.ApplyActivation | packages/ann/activation_function/c_src/activation_function.cc:174-191 | corrected: every element of the current bunch is replaced by a sample at its logistic, one draw each |
| BinarySampling.Randomize | packages/ann/activation_function/c_src/activation_function.cc:199-211 | corrected: every element of the current bunch receives its own uniform draw |
| BinarySampling.AsWrittenSkipsSecondPattern | packages/ann/activation_function/c_src/activation_function.cc:186-190 | as written, slot 1 (pattern 1 of unit 0) is never touched, while the corrected sweep samples it |
| BinarySampling.AsWrittenOverrunsBuffer | packages/ann/activation_function/c_src/activation_function.cc:186-189 | as written, with more units than bunch slots the last slot written lies outside the units_size × max_bunch_size buffer |
| BinarySampling.SweepIsDeterministic | packages/ann/activation_function/c_src/activation_function.cc:193-197 | the sweep depends only on the generator state, so a clone reproduces the original's samples |
| LossFunctions.NewLossCore | packages/ann/loss_functions/c_src/loss_function.h:37-41 | size 0 exits 128; otherwise the size is kept and no error token is held |
| LossFunctions.ResetCore | packages/ann/loss_functions/c_src/loss_function.h:48-51 | the base reset releases the error token and leaves it null |
| LossFunctions.ReleasedByBase | packages/ann/loss_functions/c_src/loss_function.h:42-44 | the base destructor releases the error token only when one is held |
| LossFunctions.CheckPair | packages/ann/loss_functions/c_src/mse_loss_function.cc:39-50 | exit 128 when the input, then the target, is not a memory block, then when their used sizes differ; otherwise the common used size |
| LossFunctions.BunchSize | packages/ann/loss_functions/c_src/mse_loss_function.cc:52 | the number of whole patterns of size values in the used cells |
| LossFunctions.NewMse | packages/ann/loss_functions/c_src/mse_loss_function.cc:27-32 | size 0 is fatal; otherwise a new error block is held as the error token and the running loss is 0 |
| LossFunctions.MseAddLoss | packages/ann/loss_functions/c_src/mse_loss_function.cc:38-60 | the checks above; the loss is 0.5*raw/bunch_size (non-finite for a zero bunch), added to the running loss and returned; the input is held |
| LossFunctions.MseComputeGradientAsWritten | packages/ann/loss_functions/c_src/mse_loss_function.cc:62-86 | as written: the checks, the input held, and the error block resized to bunch_size cells and returned |
| LossFunctions.MseComputeGradient | packages/ann/loss_functions/c_src/mse_loss_function.cc:62-86 | corrected: the error block resized to bunch_size*size cells and returned |
| LossFunctions.MseGradientShape | packages/ann/loss_functions/c_src/mse_loss_function.cc:78-79 | for whole patterns the corrected gradient has the input's used size; the as-written one only for size 1 or an empty input |
| LossFunctions.MseGetAccumLoss | packages/ann/loss_functions/c_src/mse_loss_function.cc:88-90 | the running sum, with no division |
| LossFunctions.MseReset | packages/ann/loss_functions/c_src/mse_loss_function.cc:92-97 | the running loss is 0 and the error token stays held, since the base reset is not called |
| LossFunctions.MseReleasedOnDestroy | packages/ann/loss_functions/c_src/mse_loss_function.cc:34-36 | the error block is released by the MSE destructor and again by the base destructor |
| LossFunctions.NewMae | packages/ann/loss_functions/c_src/mae_loss_function.cc:27-29 | size 0 is fatal; otherwise running loss 0, count 0, no error token |
| LossFunctions.MaeAddLoss | packages/ann/loss_functions/c_src/mae_loss_function.cc:34-54 | the checks; the loss is raw/bunch_size (non-finite for a zero bunch), added to the running loss and returned, and N rises by exactly one |
| LossFunctions.MaeComputeGradient | packages/ann/loss_functions/c_src/mae_loss_function.cc:56-79 | the checks; a fresh error block of the input's used size becomes the held error token and is returned |
| LossFunctions.MaeGetAccumLoss | packages/ann/loss_functions/c_src/mae_loss_function.cc:81-83 | running loss / N: the mean for N > 0, non-finite for N = 0 |
| LossFunctions.MaeReset | packages/ann/loss_functions/c_src/mae_loss_function.cc:85-89 | the base reset releases the error token; running loss and N are 0 |
| LossFunctions.MaeReleasedOnDestroy | packages/ann/loss_functions/c_src/mae_loss_function.cc:31-32 | the MAE destructor adds nothing to the base destructor's release: exactly the held error token, if any, is released |
| LossFunctions.GradientsAgreeOnShape | packages/ann/loss_functions/c_src/mae_loss_function.cc:56-79 | on whole patterns the MAE gradient block and the corrected MSE one both have the input's used size, and the MAE block is exactly what its destructor releases |
| LossFunctions.ResetsDifferOnErrorToken | packages/ann/loss_functions/c_src/mse_loss_function.cc:92-97 | after reset an MSE loss still holds its error token, an MAE loss none |
| LossFunctions.MaeAccumulates | packages/ann/loss_functions/c_src/mae_loss_function.cc:45-53 | over accepted samples of at least one pattern, N grows by the number of samples and the running loss by the sum of their per-bunch losses |
| LossFunctions.MaeReportsMean | packages/ann/loss_functions/c_src/mae_loss_function.cc:81-83 | after k >= 1 samples from a reset state getAccumLoss is the mean of the per-bunch losses |
| LossFunctions.MseSumsWithoutAveraging | packages/ann/loss_functions/c_src/mse_loss_function.cc:52-59 | over the same kind of samples the MSE running loss is the plain sum of the half per-bunch losses |
| LossFunctions.PartialPatternPoisonsMae | packages/ann/loss_functions/c_src/mae_loss_function.cc:45-52 | one accepted sample smaller than one pattern makes the MAE running loss non-finite for the rest of the run |

## Left out

- Floating point: weights are exact reals and `saxpy`/`sscal` are exact; single-precision rounding is not modelled. Loss values are reals plus one non-finite value standing for every infinity and NaN.
- The numeric kernels are parameters: sigmoid, tanh and softmax and their derivatives, the MSE and MAE loss and gradient kernels, `1/sqrtf`, and the per-output error sums that `doSaxpyLoop` forms in the bias update. The bias forward's copy-and-add of the bias vector and the contents of gradient blocks are not modelled, only their sizes.
- Buffer mirroring between host and accelerator memory, and every `use_cuda` flag except the softmax lock and the binary-sampling warning.
- The random generator is an oracle indexed by the number of draws; `rnd_weight`'s handling of values inside the near-zero band and the way `sampleOne` uses its draw are not modelled. Each sample is taken to use one draw.
- Unsigned 32-bit arithmetic: the guard's `static_cast<int>` and a possible overflow of min_size or of offsets are not modelled (integers are unbounded).
- Allocation failure of a new matrix (exit 130) is not modelled; allocation always succeeds. The constructor's uninitialised buffers are modelled as zeros.
- `IncRef`/`DecRef` beyond which tokens are held; freeing memory, and the destructors of matrices, the bias component and softmax.
- LossFunctions.MseReleasedOnDestroy: the second release is recorded but DecRef is not part of this model, so whether it is harmful is not stated.
- `pruneSubnormalAndCheckNormal` (needs `check_floats`, which is not part of this model), `printDebug` (output only) and the trivial accessors `size`, `getPtr`, `getPrevPtr`, `getNumReferences`.
- The base `ANNComponent::build` and `ANNComponent::getOption` are not part of this model: build is taken to store the sizes given, and getOption of an unknown key is taken to be fatal.
- The `mSetOption`/`mHasOption`/`mGetOption` macros are not part of this model; they are taken to compare the key and return on a match.
- `ceiling_power_of_two.h` is not part of this model; `ceilingPowerOfTwo(n)` is taken to be the least power of two at least n (1 for n <= 1).
- The token memory block is not part of this model; a new block of n cells is taken to have used size n. Token identity is an id, and MSE's "replace the input only when it is another token" has no visible effect on values.
- WeightLayout.CopyWeightsTo: with overlapping columns (column_size < num_inputs) the contract says only that a cell holds one of the weights mapped to it, not which one.
- WeightLayout.LoadWeights and WeightLayout.CopyWeightsTo require the old-weights matrix to hold every cell the loops touch once the data matrix passes; the source checks only the data matrix and would read or write the old one out of bounds.
- WeightLayout.LoadWeightsAsWritten and WeightLayout.CopyWeightsToAsWritten require that matrices passing the source's guard and simplicity check hold every cell the loops touch; on the others the source reads or writes past the end, which is undefined behaviour and not modelled.
- Aliasing of the data and old-weights matrices in `copyWeightsTo`: the model returns two separate matrices.
- Connections.RandomizeWeightsAtColumn requires an existing column; the source does not check `col`.
- BinarySampling.ApplyActivationAsWritten and BinarySampling.RandomizeAsWritten require the last slot they write to lie in the buffer; the source does not check it.
- BinarySampling.ApplyActivation and BinarySampling.Randomize require cur_bunch_size <= max_bunch_size, which the layer configuration is taken to guarantee.
- LossFunctions.CheckPair, LossFunctions.MseAddLoss, LossFunctions.MseComputeGradientAsWritten, LossFunctions.MseComputeGradient, LossFunctions.MaeAddLoss, LossFunctions.MaeComputeGradient: the input and target tokens are non-null values; the source dereferences them without a null check, and a null token from the caller is not modelled.
- WeightLayout.LoadWeightsAsWritten, WeightLayout.CopyWeightsToAsWritten, WeightLayout.LoadWeights, WeightLayout.CopyWeightsTo: the data matrix (and copyWeightsTo's old-weights matrix) are non-null values; the source dereferences them unchecked, and a null matrix is not modelled.
- BiasComponent.DoUpdate requires that a set bias vector be the 1 × output_size matrix of the registry with error sums of its size, which build establishes; a component inconsistent with its registry is not modelled.
- Connections.RandomizeWeights, Connections.RandomizeWeightsAtColumn: the near-zero asserts are taken to be enabled; in a build with NDEBUG the draws happen with any bounds.
- BiasComponent.DoForward: the bias-vector assert is taken to be enabled; with NDEBUG an unbuilt component dereferences null instead.
- BiasComponent.DoUpdate: the learning-rate assert is taken to be enabled; with NDEBUG an update with learning_rate -1 runs and moves the weights along the error.
- Activation.ByConstString: `constString`'s comparison with a C string literal is not part of this model; it is taken to be whole-string equality.
- BiasComponent.GetOption: the base `getOption` is not part of this model; an unknown key is modelled as fatal, and the exit code 128 it carries is a stand-in, not a code taken from the source.

## Findings

| source | as written | input that shows it | evidently intended | confidence | as-written member | corrected member |
|---|---|---|---|---|---|---|
| packages/ann/ann_base/c_src/connection.cc:193-199 | the guard is total_size + max(0, column_size - num_inputs - 1)*num_outputs + first_weight_pos, too small for num_inputs < column_size < num_inputs + num_outputs | a 2×2 matrix, column_size 3, first 0: the guard asks for 4 cells, the loops read and write cell 4 | one past the last touched cell: first_weight_pos + (num_outputs - 1)*column_size + num_inputs, or 0 without weights | not executed; high | WeightLayout.SourceGuardAdmitsOutOfBounds | WeightLayout.MinSizeCoversAll |
| packages/ann/ann_base/c_src/connection.cc:193-199 | the same guard is too large for column_size > num_inputs + num_outputs | a 1×2 matrix, column_size 5, first 0: the loops touch cells 0 and 5 of a 6-cell matrix, the guard asks for 8 and exits 24 | the same corrected size, which accepts the 6-cell matrix | not executed; high | WeightLayout.SourceGuardRejectsCoveringMatrix | WeightLayout.LoadWeights |
| packages/ann/activation_function/c_src/activation_function.cc:186-190 | applyActivation writes units_ptr[i] inside the bunch loop | 1 unit, cur_bunch_size 2, max_bunch_size 2: slot 0 is sampled twice and slot 1 never; 3 units, max_bunch_size 2: slot 6 of a 6-cell buffer is written | units_ptr[b]: one sample per element of the bunch | not executed; high | BinarySampling.AsWrittenSkipsSecondPattern | BinarySampling.BunchSweep |
| packages/ann/activation_function/c_src/activation_function.cc:206-210 | randomize writes units_ptr[i] inside the bunch loop | 1 unit, cur_bunch_size 2, max_bunch_size 2: slot 1 never receives a draw | units_ptr[b]: one draw per element of the bunch | not executed; high | BinarySampling.AsWrittenSkipsSecondPattern | BinarySampling.Randomize |
| packages/ann/loss_functions/c_src/mse_loss_function.cc:78-79 | the error block is resized to bunch_size cells | size 2, an input of 4 cells: the gradient token reports 2 used cells while the kernel fills 4 | bunch_size*size cells, the input's shape, as the MAE gradient has | not executed; medium | LossFunctions.MseGradientShape | LossFunctions.MseComputeGradient |
