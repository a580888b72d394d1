/** Outcomes of the runtime's operations.

    The runtime never recovers from a usage error: `ERROR_EXIT` terminates
    the process with an exit code and a failed `assert` aborts it.  Both are
    modelled as a `Fatal` result that carries the reason, so that every
    error path is visible in a contract instead of being excluded by a
    precondition. */
module Results {

  /** What was wrong with the call. */
  datatype Reason =
    | IncorrectMatrixSize        // loadWeights / copyWeightsTo: dense matrix too small
    | MatrixNotSimple            // dense matrix is a sub-matrix or not row-major
    | NearZeroRange              // randomize bounds inside the near-zero band
    | NotBuilt                   // component used before build
    | IncorrectInputToken        // forward: null or not a memory block
    | IncorrectErrorToken        // backprop: null or not a memory block
    | UnknownSizes               // build with a zero input or output size
    | SizesMustBeEqual           // bias build with input size != output size
    | WrongWeightsShape          // shared matrix found with another shape
    | WeightsNotShared           // copyWeights: dictionary holds another matrix
    | LearningRateNotSet         // update before learning_rate > 0 was set
    | UnknownOption              // getOption of a key nobody handles
    | IncorrectActivationType(name: Option<string>)  // the message names the type only for C strings
    | SoftmaxSizeChanged         // accelerated softmax reused at another size
    | ZeroSizeLoss               // loss function of size 0
    | IncorrectTokenType         // loss: input token not a memory block
    | IncorrectTargetType        // loss: target token not a memory block
    | DifferentTokenSizes        // loss: input and target used sizes differ
    | NoErrorToken               // update before any error token was received

  /** `ErrorExit` carries the exit code the source passes to ERROR_EXIT;
      `AssertionFailed` is a failed `assert` (no exit code); `NullDereference`
      is a call through a null pointer, undefined behaviour that ends the
      model's run. */
  datatype Failure =
    | ErrorExit(code: nat, reason: Reason)
    | AssertionFailed(reason: Reason)
    | NullDereference(reason: Reason)

  datatype Result<+T> = Ok(value: T) | Fatal(failure: Failure) {

    predicate IsFailure() {
      Fatal?
    }

    function PropagateFailure<U>(): Result<U>
      requires Fatal?
    {
      Fatal(failure)
    }

    function Extract(): T
      requires Ok?
    {
      value
    }
  }

  /** A value that a pointer-typed field may hold: `None` is the null pointer. */
  datatype Option<+T> = None | Some(value: T)
}
