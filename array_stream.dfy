/** The stream normaliser (npstreams/array_stream.py): a stream of arrays that fixes the
    data type from a peeked first element, and the decorator that wraps a function's first
    argument in it. Each element of a source iterable is modelled by the array `np.asanyarray`
    makes of it. */
module ArrayStreams {
  import opened Wrappers
  import opened NdArrays
  import opened IterUtils

  /** An object passed where a stream is expected: a bare `ndarray`, or an iterable together
      with the length information it offers. */
  datatype Source = BareArray(a: Array) | Iterable(items: seq<Array>, length: LengthInfo)

  /** `np.asanyarray(a, dtype=d)`: the same elements under the type tag `d`. */
  function Cast(a: Array, d: DType): (r: Array)
    ensures r.shape == a.shape && r.data == a.data && r.dtype == d
  {
    NdArray(a.shape, d, a.data)
  }

  /** Every array of `xs` converted to `d`. */
  function CastAll(xs: seq<Array>, d: DType): (r: seq<Array>)
    ensures |r| == |xs| && forall i :: 0 <= i < |xs| ==> r[i] == Cast(xs[i], d)
  {
    seq(|xs|, i requires 0 <= i < |xs| => Cast(xs[i], d))
  }

  lemma CastAllTail(xs: seq<Array>, d: DType)
    requires xs != []
    ensures CastAll(xs, d) == [Cast(xs[0], d)] + CastAll(xs[1..], d)
  {
  }

  /** The iterable the constructor works on: a bare array becomes the tuple `(arr,)`. */
  function Repackaged(src: Source): Source {
    if src.BareArray? then Iterable([src.a], HasLen(1)) else src
  }

  /** What `length_hint(stream, default=NotImplemented)` gives for the repackaged source. */
  function SequenceLength(src: Source): Result<LengthHint> {
    var it := Repackaged(src);
    LengthHintOf(it.length, NotImplemented)
  }

  /** The arrays an `ArrayStream` built from `src` produces, in order, or the exception its
      constructor raises: the length hint is taken first, then `peek` fails on an empty iterable. */
  function StreamItems(src: Source): (r: Result<seq<Array>>)
    ensures src.BareArray? ==> r == Ok([src.a])
    ensures src.Iterable? ==> (r.Err? <==> SequenceLength(src).Err? || src.items == [])
    ensures src.Iterable? && src.items == [] && SequenceLength(src).Ok? ==> r == Err(Exception(StopIteration, IteratorExhausted))
    ensures r.Ok? ==> |r.value| > 0
    ensures r.Ok? && src.Iterable? ==> && |r.value| == |src.items|
                                       && forall i :: 0 <= i < |src.items| ==>
                                            r.value[i] == Cast(src.items[i], src.items[0].dtype)
  {
    var it := Repackaged(src);
    var _ :- SequenceLength(src);
    var (first, rest) :- Peek(it.items);
    assert src.BareArray? ==> CastAll(it.items, first.dtype) == [src.a];
    Ok(CastAll(rest, first.dtype))
  }

  /** `ArrayStream`: the items still to be drained, the stream's data type and its length hint. */
  class ArrayStream {
    var pending: seq<Array>
    var dtype: DType
    var sequenceLength: LengthHint

    /** The arrays the stream will still produce. */
    function Contents(): seq<Array>
      reads this
    {
      CastAll(pending, dtype)
    }

    constructor Init(items: seq<Array>, d: DType, hint: LengthHint)
      ensures pending == items && dtype == d && sequenceLength == hint
    {
      pending := items;
      dtype := d;
      sequenceLength := hint;
    }

    /** `ArrayStream(stream)`. */
    static method Create(src: Source) returns (r: Result<ArrayStream>)
      ensures r.Err? <==> StreamItems(src).Err?
      ensures r.Err? ==> r == Err(StreamItems(src).error)
      ensures r.Ok? ==> && fresh(r.value)
                        && r.value.Contents() == StreamItems(src).value
                        && r.value.sequenceLength == SequenceLength(src).value
    {
      var it := Repackaged(src);
      var hint := LengthHintOf(it.length, NotImplemented);
      if hint.Err? {
        return Err(hint.error);
      }
      var peeked := Peek(it.items);
      if peeked.Err? {
        return Err(peeked.error);
      }
      var (first, stream) := peeked.value;
      var s := new ArrayStream.Init(stream, first.dtype, hint.value);
      r := Ok(s);
    }

    /** `__next__`: the next array converted to the stream's data type, or exhaustion. */
    method Next() returns (r: Step<Array>)
      modifies this
      ensures dtype == old(dtype) && sequenceLength == old(sequenceLength)
      ensures old(pending) == [] ==> r == Exhausted && pending == []
      ensures old(pending) != [] ==> r == Yielded(old(Contents())[0]) && pending == old(pending)[1..]
    {
      if pending == [] {
        return Exhausted;
      }
      r := Yielded(Cast(pending[0], dtype));
      pending := pending[1..];
    }

    /** `__length_hint__`: the length known at construction, or `NotImplemented`. */
    function LengthHint(): (h: LengthHint)
      reads this
      ensures h == sequenceLength
    {
      sequenceLength
    }

    /** `__array__`: drains the stream into a list and stacks it along a new trailing axis. */
    method ToArray() returns (r: Result<Array>)
      modifies this
      ensures pending == [] && dtype == old(dtype)
      ensures r == Stack(old(Contents()))
    {
      ghost var all := Contents();
      var arrays: seq<Array> := [];
      while true
        invariant dtype == old(dtype)
        invariant all == arrays + CastAll(pending, dtype)
        decreases |pending|
      {
        ghost var before := pending;
        var step := Next();
        if step.Exhausted? {
          assert pending == [] && CastAll(pending, dtype) == [];
          break;
        }
        CastAllTail(before, dtype);
        assert all == (arrays + [step.value]) + CastAll(pending, dtype);
        arrays := arrays + [step.value];
      }
      assert CastAll(pending, dtype) == [];
      assert arrays == all == old(Contents());
      r := Stack(arrays);
    }
  }

  /** The first argument of a function decorated with `array_stream`. */
  datatype Argument = Plain(src: Source) | Wrapped(stream: ArrayStream)

  /** The `array_stream` decorator's argument handling: a stream is wrapped at most once. */
  method Decorate(arg: Argument) returns (r: Result<ArrayStream>)
    ensures arg.Wrapped? ==> r == Ok(arg.stream)
    ensures arg.Plain? ==> (r.Err? <==> StreamItems(arg.src).Err?)
    ensures arg.Plain? && r.Ok? ==> fresh(r.value) && r.value.Contents() == StreamItems(arg.src).value
  {
    if arg.Wrapped? {
      return Ok(arg.stream);
    }
    r := ArrayStream.Create(arg.src);
  }
}
