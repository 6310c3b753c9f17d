/** Function pipelines (npstreams/flow.py): `_pipe` applies a list of functions in order, and
    `ipipe(f, g, h, stream)` maps `f(g(h(x)))` over the stream through `pmap`. */
module Flow {
  import opened Wrappers
  import opened Seqs
  import opened NdArrays
  import opened ArrayStreams
  import opened Parallel
  import opened IterUtils

  /** `_pipe(funcs, x)`: each function in listed order, applied to the previous result. */
  function Pipe<T>(funcs: seq<T -> T>, x: T): T
    decreases |funcs|
  {
    if funcs == [] then x else Pipe(funcs[1..], funcs[0](x))
  }

  /** The loop of `_pipe`, rebinding `array` to each function's result. */
  method PipeLoop<T>(funcs: seq<T -> T>, x: T) returns (r: T)
    ensures r == Pipe(funcs, x)
  {
    r := x;
    for i := 0 to |funcs|
      invariant Pipe(funcs[i..], r) == Pipe(funcs, x)
    {
      assert funcs[i..][1..] == funcs[i + 1..];
      r := funcs[i](r);
    }
    assert funcs[|funcs|..] == [];
  }

  /** The last function of the list is applied last. */
  lemma {:induction false} PipeAppend<T>(funcs: seq<T -> T>, g: T -> T, x: T)
    ensures Pipe(funcs + [g], x) == g(Pipe(funcs, x))
    decreases |funcs|
  {
    if funcs == [] {
      assert ([] + [g])[1..] == [];
    } else {
      assert (funcs + [g])[1..] == funcs[1..] + [g];
      PipeAppend(funcs[1..], g, funcs[0](x));
    }
  }

  /** `funcs[0](funcs[1](... funcs[n - 1](x)))`: the first function is applied last. */
  function Nested<T>(funcs: seq<T -> T>, x: T): T
    decreases |funcs|
  {
    if funcs == [] then x else funcs[0](Nested(funcs[1..], x))
  }

  /** The functions in reverse order: `tuple(reversed(funcs))`. */
  function Reversed<T>(funcs: seq<T>): (r: seq<T>)
    ensures |r| == |funcs| && forall i :: 0 <= i < |funcs| ==> r[i] == funcs[|funcs| - 1 - i]
  {
    seq(|funcs|, i requires 0 <= i < |funcs| => funcs[|funcs| - 1 - i])
  }

  /** Piping through the reversed list nests the functions as written:
      `_pipe(reversed((f, g, h)), x) == f(g(h(x)))`. */
  lemma {:induction false} PipeReversed<T>(funcs: seq<T -> T>, x: T)
    ensures Pipe(Reversed(funcs), x) == Nested(funcs, x)
    decreases |funcs|
  {
    if funcs != [] {
      var rest := funcs[1..];
      assert Reversed(funcs) == Reversed(rest) + [funcs[0]];
      PipeAppend(Reversed(rest), funcs[0], x);
      PipeReversed(rest, x);
    }
  }

  /** `partial(_pipe, functions)` as the function `pmap` maps; it takes no extra arguments. */
  function PipeStage(functions: seq<Array -> Array>): (seq<int>, Array) -> Array {
    (_: seq<int>, x: Array) => Pipe(functions, x)
  }

  /** `ipipe(*funcs, stream, processes=...)` drained. The `ArrayStream` is built inside the
      generator, so an empty stream surfaces as RuntimeError at the first `next()`; an
      invalid pool size raises from `pmap`. */
  function IPipe(funcs: seq<Array -> Array>, src: Source, processes: Option<int>, cpuCount: nat): Run<Array> {
    match StreamItems(src)
    case Err(e) => Run([], Some(if e.kind == StopIteration then StoppedInsideGenerator else e))
    case Ok(items) => PMap(PipeStage(Reversed(funcs)), [], items, processes, cpuCount)
  }

  /** Whatever the number of processes, `ipipe(f, g, h, stream)` yields `f(g(h(x)))` for each
      array `x` of the stream, one per input and in input order. */
  lemma IPipeYields(funcs: seq<Array -> Array>, src: Source, processes: Option<int>, cpuCount: nat)
    requires StreamItems(src).Ok? && PoolSize(processes, cpuCount).Ok?
    ensures var items := StreamItems(src).value;
            && IPipe(funcs, src, processes, cpuCount).raised.None?
            && |IPipe(funcs, src, processes, cpuCount).outputs| == |items|
            && forall i :: 0 <= i < |items| ==> IPipe(funcs, src, processes, cpuCount).outputs[i] == Nested(funcs, items[i])
  {
    var items := StreamItems(src).value;
    var run := IPipe(funcs, src, processes, cpuCount);
    forall i | 0 <= i < |items| ensures run.outputs[i] == Nested(funcs, items[i]) {
      PipeReversed(funcs, items[i]);
    }
  }

  /** With no functions, `ipipe` gives back the stream's arrays. */
  lemma IPipeIdentity(src: Source, processes: Option<int>, cpuCount: nat)
    requires StreamItems(src).Ok? && PoolSize(processes, cpuCount).Ok?
    ensures IPipe([], src, processes, cpuCount) == Run(StreamItems(src).value, None)
  {
    IPipeYields([], src, processes, cpuCount);
  }

  /** An empty iterable is only discovered when the generator first runs. */
  lemma IPipeEmpty(funcs: seq<Array -> Array>, length: LengthInfo, processes: Option<int>, cpuCount: nat)
    requires SequenceLength(Iterable([], length)).Ok?
    ensures IPipe(funcs, Iterable([], length), processes, cpuCount) == Run([], Some(StoppedInsideGenerator))
  {
  }
}
