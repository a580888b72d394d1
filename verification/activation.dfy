/** Activation functions of the neuron layers (`ActivationFunction`).

    The numeric routines (sigmoid, tanh, softmax and their derivatives) are
    single-precision backend kernels; here they are the parameters of a
    `Kernels` record and the model states which routine each variant
    dispatches to, what state it keeps and when it fails. */
module Activation {
  import opened Results

  /** The layer configuration an activation call sees. */
  datatype Configuration = Configuration(curBunchSize: nat, maxBunchSize: nat)

  /** The backend routines.  Each receives the units buffer (and the error
      buffer for derivatives), its size, the layer configuration and the
      accelerator flag; softmax also receives the element count of its
      three reduction buffers (0 while they are not allocated). */
  datatype Kernels = Kernels(
    logistic: (seq<real>, nat, Configuration, bool) -> seq<real>,
    tanh: (seq<real>, nat, Configuration, bool) -> seq<real>,
    softmax: (seq<real>, nat, nat, Configuration, bool) -> seq<real>,
    logisticDerivative: (seq<real>, seq<real>, nat, Configuration, bool) -> seq<real>,
    tanhDerivative: (seq<real>, seq<real>, nat, Configuration, bool) -> seq<real>)

  /** The selectable activation functions.  Softmax keeps the size it was
      locked to on the accelerator (0 = not locked) and the element count of
      each of its three reduction buffers (0 = not allocated). */
  datatype ActivationFunction =
    | Linear
    | Logistic
    | Tanh
    | Softmax(size: nat, scratch: nat)

  /** A softmax as the constructor makes it. */
  const FreshSoftmax: ActivationFunction := Softmax(0, 0)

  // ---------------------------------------------------------------------
  // selection by name

  /** The C-string overload compares with `strcmp`, which reads up to the
      first NUL character. */
  function CStringPrefix(s: string): (p: string)
    ensures p <= s && '\0' !in p
    ensures |p| < |s| ==> s[|p|] == '\0'
  {
    if s == [] || s[0] == '\0' then [] else [s[0]] + CStringPrefix(s[1..])
  }

  /** `getActivationFunctionByTypeString(const char *)`: the message of the
      failure names the type. */
  function ByTypeString(s: string): (r: Result<ActivationFunction>)
    ensures var p := CStringPrefix(s);
            && (p == "inputs" || p == "linear" <==> r == Ok(Linear))
            && (p == "logistic" <==> r == Ok(Logistic))
            && (p == "tanh" <==> r == Ok(Tanh))
            && (p == "softmax" <==> r == Ok(FreshSoftmax))
            && (r.Fatal? <==> p !in {"inputs", "linear", "logistic", "tanh", "softmax"})
            && (r.Fatal? ==> r.failure == ErrorExit(256, IncorrectActivationType(Some(p))))
  {
    var p := CStringPrefix(s);
    if p == "inputs" || p == "linear" then Ok(Linear)
    else if p == "logistic" then Ok(Logistic)
    else if p == "tanh" then Ok(Tanh)
    else if p == "softmax" then Ok(FreshSoftmax)
    else Fatal(ErrorExit(256, IncorrectActivationType(Some(p))))
  }

  /** `getActivationFunctionByTypeString(const constString &)`: compares
      the whole counted string; the message does not name the type. */
  function ByConstString(s: string): (r: Result<ActivationFunction>)
    ensures s == "inputs" || s == "linear" <==> r == Ok(Linear)
    ensures s == "logistic" <==> r == Ok(Logistic)
    ensures s == "tanh" <==> r == Ok(Tanh)
    ensures s == "softmax" <==> r == Ok(FreshSoftmax)
    ensures r.Fatal? <==> s !in {"inputs", "linear", "logistic", "tanh", "softmax"}
    ensures r.Fatal? ==> r.failure == ErrorExit(256, IncorrectActivationType(None))
  {
    if s == "inputs" || s == "linear" then Ok(Linear)
    else if s == "logistic" then Ok(Logistic)
    else if s == "tanh" then Ok(Tanh)
    else if s == "softmax" then Ok(FreshSoftmax)
    else Fatal(ErrorExit(256, IncorrectActivationType(None)))
  }

  /** Both overloads select the same function for the same name, and both
      exit with code 256 on the same names; a string without NUL characters
      is read identically by both. */
  lemma OverloadsAgree(s: string)
    ensures ByTypeString(s).Ok? <==> ByConstString(CStringPrefix(s)).Ok?
    ensures ByTypeString(s).Ok? ==> ByTypeString(s) == ByConstString(CStringPrefix(s))
    ensures ByTypeString(s).Fatal? ==> ByTypeString(s).failure.code == ByConstString(CStringPrefix(s)).failure.code == 256
    ensures '\0' !in s ==> CStringPrefix(s) == s
  {
    if '\0' !in s { NoNulIsOwnPrefix(s); }
  }

  lemma {:induction false} NoNulIsOwnPrefix(s: string)
    requires '\0' !in s
    ensures CStringPrefix(s) == s
  {
    if s != [] {
      assert s[0] != '\0';
      assert '\0' !in s[1..] by {
        forall k | 0 <= k < |s[1..]| ensures s[1..][k] != '\0' { assert s[1..][k] == s[k + 1]; }
      }
      NoNulIsOwnPrefix(s[1..]);
      assert s == [s[0]] + s[1..];
    }
  }

  /** The type name a function is selected by. */
  function TypeName(f: ActivationFunction): string
  {
    match f
    case Linear => "linear"
    case Logistic => "logistic"
    case Tanh => "tanh"
    case Softmax(_, _) => "softmax"
  }

  // ---------------------------------------------------------------------
  // clone

  /** `clone`: a new instance of the same variant; a softmax clone is
      unlocked and has no reduction buffers. */
  function Clone(f: ActivationFunction): (r: ActivationFunction)
    ensures TypeName(r) == TypeName(f)
    ensures r.Softmax? ==> r.size == 0 && r.scratch == 0
  {
    match f
    case Softmax(_, _) => FreshSoftmax
    case _ => f
  }

  /** A clone is exactly what selecting the function by its type name
      yields. */
  lemma CloneIsFreshSelection(f: ActivationFunction)
    ensures ByConstString(TypeName(f)) == Ok(Clone(f))
    ensures ByTypeString(TypeName(f)) == Ok(Clone(f))
  {
    var n := TypeName(f);
    NoNulIsOwnPrefix(n);
  }

  // ---------------------------------------------------------------------
  // softmax reduction size

  predicate IsPowerOfTwo(p: nat)
    decreases p
  {
    p == 1 || (p >= 2 && p % 2 == 0 && IsPowerOfTwo(p / 2))
  }

  /** The least power of two that is at least `n` (1 for 0 and 1).  The
      header defining it is not part of this model. */
  function CeilingPowerOfTwo(n: nat): (p: nat)
    ensures IsPowerOfTwo(p) && p >= n && p >= 1
    ensures p > 1 ==> p / 2 < n
    decreases n
  {
    if n <= 1 then 1 else 2 * CeilingPowerOfTwo((n + 1) / 2)
  }

  /** `ceilingPowerOfTwo(n) >> 1`: the first halving step of the
      tree reduction over `n` units. */
  function ReductionSize(n: nat): (h: nat)
    ensures n >= 2 ==> IsPowerOfTwo(h) && h < n <= 2 * h
    ensures n <= 1 ==> h == 0
  {
    CeilingPowerOfTwo(n) / 2
  }

  // ---------------------------------------------------------------------
  // applyActivation / multiplyDerivatives

  /** The size lock of softmax on the accelerator path: the first call
      locks the size and allocates three reduction buffers of
      `ReductionSize(units_size) * max_bunch_size` elements; a later call
      at another size is fatal.  The host path neither sets nor checks the
      size; the other variants keep no state. */
  function SoftmaxLock(f: ActivationFunction, unitsSize: nat, conf: Configuration, useCuda: bool)
    : (r: Result<ActivationFunction>)
    ensures r.Fatal? <==> useCuda && f.Softmax? && f.size != 0 && f.size != unitsSize
    ensures r.Fatal? ==> r.failure == ErrorExit(128, SoftmaxSizeChanged)
    ensures r.Ok? && useCuda && f.Softmax? && f.size == 0
            ==> r.value == Softmax(unitsSize, ReductionSize(unitsSize) * conf.maxBunchSize)
    ensures r.Ok? && !(useCuda && f.Softmax? && f.size == 0) ==> r.value == f
  {
    match f
    case Softmax(size, _) =>
      if !useCuda then Ok(f)
      else if size == 0 then Ok(Softmax(unitsSize, ReductionSize(unitsSize) * conf.maxBunchSize))
      else if size != unitsSize then Fatal(ErrorExit(128, SoftmaxSizeChanged))
      else Ok(f)
    case _ => Ok(f)
  }

  /** `applyActivation`: the lock above, then the variant's kernel on the
      units; Linear leaves the units untouched. */
  function ApplyActivation(f: ActivationFunction, units: seq<real>, unitsSize: nat, conf: Configuration,
                           useCuda: bool, k: Kernels): (r: Result<(ActivationFunction, seq<real>)>)
    ensures r.Ok? <==> SoftmaxLock(f, unitsSize, conf, useCuda).Ok?
    ensures r.Fatal? ==> r.failure == ErrorExit(128, SoftmaxSizeChanged)
    ensures r.Ok? ==> r.value.0 == SoftmaxLock(f, unitsSize, conf, useCuda).value
    ensures f.Linear? ==> r == Ok((f, units))
    ensures r.Ok? && f.Logistic? ==> r.value.1 == k.logistic(units, unitsSize, conf, useCuda)
    ensures r.Ok? && f.Tanh? ==> r.value.1 == k.tanh(units, unitsSize, conf, useCuda)
    ensures r.Ok? && f.Softmax? ==> r.value.1 == k.softmax(units, unitsSize, r.value.0.scratch, conf, useCuda)
  {
    var f' :- SoftmaxLock(f, unitsSize, conf, useCuda);
    match f
    case Linear => Ok((f', units))
    case Logistic => Ok((f', k.logistic(units, unitsSize, conf, useCuda)))
    case Tanh => Ok((f', k.tanh(units, unitsSize, conf, useCuda)))
    case Softmax(_, _) => Ok((f', k.softmax(units, unitsSize, f'.scratch, conf, useCuda)))
  }

  /** `multiplyDerivatives`: the error buffer after the variant's
      derivative routine; softmax delegates to the logistic one and Linear
      leaves the errors untouched.  None of them changes the function. */
  function MultiplyDerivatives(f: ActivationFunction, units: seq<real>, errors: seq<real>, size: nat,
                               conf: Configuration, useCuda: bool, k: Kernels): (r: seq<real>)
    ensures f.Linear? ==> r == errors
    ensures f.Tanh? ==> r == k.tanhDerivative(units, errors, size, conf, useCuda)
    ensures f.Logistic? || f.Softmax? ==> r == k.logisticDerivative(units, errors, size, conf, useCuda)
  {
    match f
    case Linear => errors
    case Logistic => k.logisticDerivative(units, errors, size, conf, useCuda)
    case Tanh => k.tanhDerivative(units, errors, size, conf, useCuda)
    case Softmax(_, _) => k.logisticDerivative(units, errors, size, conf, useCuda)
  }

  /** The softmax derivative is the logistic derivative, whatever state the
      softmax is in. */
  lemma SoftmaxDerivativeIsLogistic(size: nat, scratch: nat, units: seq<real>, errors: seq<real>, n: nat,
                                    conf: Configuration, useCuda: bool, k: Kernels)
    ensures MultiplyDerivatives(Softmax(size, scratch), units, errors, n, conf, useCuda, k)
            == MultiplyDerivatives(Logistic, units, errors, n, conf, useCuda, k)
  {
  }

  /** Softmax on the accelerator, called at the given sizes in turn. */
  function RunOnAccelerator(f: ActivationFunction, sizes: seq<nat>, conf: Configuration): (r: Result<ActivationFunction>)
    ensures r.Ok? ==> TypeName(r.value) == TypeName(f)
    decreases |sizes|
  {
    if sizes == [] then Ok(f)
    else
      var f' :- SoftmaxLock(f, sizes[0], conf, true);
      RunOnAccelerator(f', sizes[1..], conf)
  }

  /** Once locked, a softmax accepts a run of accelerator calls exactly when
      every call has the locked size, and then stays as it was. */
  lemma {:induction false} LockedSoftmaxAcceptsOnlyItsSize(f: ActivationFunction, sizes: seq<nat>, conf: Configuration)
    requires f.Softmax? && f.size > 0
    ensures RunOnAccelerator(f, sizes, conf).Ok? <==> forall i :: 0 <= i < |sizes| ==> sizes[i] == f.size
    ensures RunOnAccelerator(f, sizes, conf).Ok? ==> RunOnAccelerator(f, sizes, conf).value == f
    decreases |sizes|
  {
    if sizes != [] {
      if sizes[0] == f.size {
        LockedSoftmaxAcceptsOnlyItsSize(f, sizes[1..], conf);
        assert forall i :: 1 <= i < |sizes| ==> sizes[i] == sizes[1..][i - 1];
      }
    }
  }

  /** A fresh softmax locks to its first non-zero accelerator size: the run
      succeeds exactly when every later call repeats it. */
  lemma FirstSizeLocksSoftmax(sizes: seq<nat>, conf: Configuration)
    requires |sizes| >= 1 && sizes[0] > 0
    ensures RunOnAccelerator(FreshSoftmax, sizes, conf).Ok? <==> forall i :: 0 <= i < |sizes| ==> sizes[i] == sizes[0]
    ensures RunOnAccelerator(FreshSoftmax, sizes, conf).Ok? ==>
              RunOnAccelerator(FreshSoftmax, sizes, conf).value
              == Softmax(sizes[0], ReductionSize(sizes[0]) * conf.maxBunchSize)
  {
    var f := Softmax(sizes[0], ReductionSize(sizes[0]) * conf.maxBunchSize);
    LockedSoftmaxAcceptsOnlyItsSize(f, sizes[1..], conf);
    assert forall i :: 1 <= i < |sizes| ==> sizes[i] == sizes[1..][i - 1];
  }
}
