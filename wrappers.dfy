/** Shared vocabulary: optional values, results, the exceptions the library raises,
    and the observable behaviour of a Python generator. */
module Wrappers {

  datatype Option<+T> = None | Some(value: T) {
    function GetOr(default: T): T {
      match this
      case Some(v) => v
      case None => default
    }
  }

  /** The Python exception classes that reach callers of the library. */
  datatype ExceptionKind = StopIteration | RuntimeError | TypeError | ValueError | IndexError

  /** Why an exception was raised; one tag per `raise` site (or library call) that the model covers. */
  datatype Reason =
    | IteratorExhausted           // next() on an exhausted iterator
    | GeneratorRaisedStopIteration // PEP 479: StopIteration escaping a generator frame
    | NotAUfunc
    | NotBinary
    | AlwaysBoolean
    | NoIdentity
    | AxisNotSupported
    | ShapeMismatch
    | ZeroSizeReductionWithoutIdentity
    | NotReorderable
    | EmptyStream
    | ChunksizeNotInteger
    | IsliceStopOutOfRange
    | HintNotInteger
    | NegativeHint
    | TeeNegativeCount
    | ReduceOfEmptyIterable
    | PoolSizeBelowOne
    | NothingToStack
    | ContractionFailed
    | CannotBroadcast
    | AxisOutOfBounds
    | RankMismatch
    | ZeroDimensional
    | BinsNotIncreasing

  datatype Exception = Exception(kind: ExceptionKind, reason: Reason)

  datatype Result<+T> = Ok(value: T) | Err(error: Exception) {
    predicate IsFailure() { Err? }
    function PropagateFailure<U>(): Result<U>
      requires Err?
    {
      Err(error)
    }
    function Extract(): T
      requires Ok?
    {
      value
    }
  }

  /** Everything a consumer observes when it drains a generator: the values it yielded,
      in order, and the exception that ended it (None when it simply ran out). */
  datatype Run<+T> = Run(outputs: seq<T>, raised: Option<Exception>)

  /** One call of `next()` on a generator object. */
  datatype Step<+T> = Yielded(value: T) | Exhausted | Raised(error: Exception)

  /** The run `r` preceded by one more yielded value. */
  function Prepend<T>(x: T, r: Run<T>): Run<T> {
    Run([x] + r.outputs, r.raised)
  }

  /** The run `r` preceded by the values `done`: a generator resumed after yielding `done`. */
  function PrependAll<T>(done: seq<T>, r: Run<T>): Run<T> {
    Run(done + r.outputs, r.raised)
  }

  /** Moving one yielded value from the rest of the run to the values already yielded. */
  lemma PrependAllStep<T>(done: seq<T>, x: T, r: Run<T>)
    ensures PrependAll(done, Prepend(x, r)) == PrependAll(done + [x], r)
  {
    assert done + ([x] + r.outputs) == (done + [x]) + r.outputs;
  }

  /** The exception Python 3.7+ raises when `next(it)` fails inside a generator frame. */
  const StoppedInsideGenerator: Exception := Exception(RuntimeError, GeneratorRaisedStopIteration)
}
