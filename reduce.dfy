/** The streaming reduction engine (npstreams/reduce.py): `ireduce_ufunc` validates the ufunc
    eagerly, optionally rewrites NaNs to the ufunc's identity, and then reduces the stream along
    a new axis (an in-place fold into one buffer), along an existing axis of every array (a
    growing stack of per-array reductions) or over all axes (a scalar fold). */
module Reduce {
  import opened Wrappers
  import opened Seqs
  import opened NdArrays
  import opened IterUtils
  import opened ArrayUtils
  import opened ArrayStreams
  import opened Parallel

  /** A NumPy ufunc, as far as the engine uses it: the number of inputs (`nin`), whether each
      type signature in `ufunc.types` returns booleans, the identity, whether NumPy lets it
      reduce several axes at once (it is reorderable: `np.add` is, `np.subtract` is not), and
      what it computes on two elements. */
  datatype Ufunc = Ufunc(nin: nat, boolSignatures: seq<bool>, identity: Option<Value>, reorderable: bool,
                         op: (Value, Value) -> Value)

  /** The `ufunc` argument: a NumPy ufunc, or any other callable. */
  datatype Callable = NumpyUfunc(ufunc: Ufunc) | OtherCallable

  /** The `axis` argument: None or an integer (default -1). */
  datatype Axis = AxisNone | AxisInt(i: int)

  /** A caller's `out=` buffer: an ndarray's shape, data type and flat storage. */
  datatype OutBuffer = OutBuffer(shape: seq<nat>, dtype: DType, data: array<Value>)

  // ---------------------------------------------------------------------------
  // Validation

  /** Python's `all(...)` over the signatures: true for an empty list. */
  predicate AllBoolean(sigs: seq<bool>) {
    forall i :: 0 <= i < |sigs| ==> sigs[i]
  }

  /** `_check_binary_ufunc`: None when the callable is usable, else the exception it raises. */
  function CheckBinaryUfunc(c: Callable): (r: Option<Exception>)
    ensures r.None? <==> c.NumpyUfunc? && c.ufunc.nin == 2
                         && exists i :: 0 <= i < |c.ufunc.boolSignatures| && !c.ufunc.boolSignatures[i]
    ensures c.OtherCallable? ==> r == Some(Exception(TypeError, NotAUfunc))
    ensures c.NumpyUfunc? && c.ufunc.nin != 2 ==> r == Some(Exception(ValueError, NotBinary))
    ensures r.Some? ==> r.value.kind == (if c.OtherCallable? then TypeError else ValueError)
  {
    if c.OtherCallable? then Some(Exception(TypeError, NotAUfunc))
    else if c.ufunc.nin != 2 then Some(Exception(ValueError, NotBinary))
    else if AllBoolean(c.ufunc.boolSignatures) then Some(Exception(ValueError, AlwaysBoolean))
    else None
  }

  /** The checks `ireduce_ufunc` makes before its priming `yield`. */
  function Prologue(c: Callable, ignoreNan: bool): (r: Option<Exception>)
    ensures r.None? <==> CheckBinaryUfunc(c).None? && (ignoreNan ==> c.ufunc.identity.Some?)
    ensures CheckBinaryUfunc(c).Some? ==> r == CheckBinaryUfunc(c)
    ensures CheckBinaryUfunc(c).None? && ignoreNan && c.ufunc.identity.None? ==> r == Some(Exception(ValueError, NoIdentity))
  {
    var check := CheckBinaryUfunc(c);
    if check.Some? then check
    else if ignoreNan && c.ufunc.identity.None? then Some(Exception(ValueError, NoIdentity))
    else None
  }

  // ---------------------------------------------------------------------------
  // The generator

  function AxisRank(axis: Axis): nat {
    if axis == AxisInt(-1) then 0 else 1
  }

  /** `ireduce_ufunc(arrays, ufunc, axis, dtype, ignore_nan, out=out)`: `Err` is an exception
      raised by the call itself (primed, and the stream is built by `array_stream` first); `Ok`
      is what draining the generator produces. */
  function IReduceUfunc(src: Source, c: Callable, axis: Axis, dtype: Option<DType>, ignoreNan: bool,
                        out: Option<OutBuffer>): (r: Result<Run<Array>>)
    ensures r.Err? <==> StreamItems(src).Err? || Prologue(c, ignoreNan).Some?
    ensures StreamItems(src).Err? ==> r == Err(StreamItems(src).error)
    decreases AxisRank(axis), 2
  {
    var arrays :- StreamItems(src);
    IReduceStream(arrays, c, axis, dtype, ignoreNan, out)
  }

  /** `ireduce_ufunc` called on a stream that is already an `ArrayStream` (the decorator passes it through). */
  function IReduceStream(arrays: seq<Array>, c: Callable, axis: Axis, dtype: Option<DType>, ignoreNan: bool,
                         out: Option<OutBuffer>): (r: Result<Run<Array>>)
    requires |arrays| > 0
    ensures r.Err? <==> Prologue(c, ignoreNan).Some?
    ensures r.Err? ==> r.error == Prologue(c, ignoreNan).value
    decreases AxisRank(axis), 1
  {
    var check := Prologue(c, ignoreNan);
    if check.Some? then Err(check.value)
    else
      var u := c.ufunc;
      var xs := if ignoreNan then IgnoreNan(arrays, u.identity.value) else arrays;
      Ok(Dispatch(xs, u, axis, dtype, out))
  }

  /** `map(partial(nan_to_num, fill_value=identity, copy=False), arrays)`. */
  function IgnoreNan(arrays: seq<Array>, identity: Value): (r: seq<Array>)
    ensures |r| == |arrays|
    ensures forall i :: 0 <= i < |arrays| ==> r[i] == NanToNumArray(arrays[i], identity)
  {
    seq(|arrays|, i requires 0 <= i < |arrays| => NanToNumArray(arrays[i], identity))
  }

  /** What follows the priming `yield`: the choice of mode. An integer axis at or beyond the
      first array's rank restarts `ireduce_ufunc` on the peeked stream with axis -1. */
  function Dispatch(xs: seq<Array>, u: Ufunc, axis: Axis, dtype: Option<DType>, out: Option<OutBuffer>): Run<Array>
    requires |xs| > 0
    decreases AxisRank(axis), 0
  {
    match axis
    case AxisNone => AllAxesRun(xs, u, dtype)
    case AxisInt(i) =>
      if i == -1 then NewAxisRun(xs, u.op, dtype, out)
      else if i >= |xs[0].shape| then
        match IReduceUfunc(Iterable(xs, NoLengthInfo), NumpyUfunc(u), AxisInt(-1), dtype, false, out)
        case Ok(run) => run
        case Err(e) => Run([], Some(e))
      else ExistingAxisRun(xs, u, i, dtype)
  }

  /** The dispatch rule: -1 and any axis at or beyond the rank reduce along a new axis, None
      over all axes, and the remaining integers along an existing axis. */
  lemma DispatchRule(xs: seq<Array>, u: Ufunc, axis: Axis, dtype: Option<DType>, out: Option<OutBuffer>)
    requires |xs| > 0
    requires CheckBinaryUfunc(NumpyUfunc(u)).None?
    requires forall k :: 0 <= k < |xs| ==> xs[k].dtype == xs[0].dtype
    ensures axis.AxisNone? ==> Dispatch(xs, u, axis, dtype, out) == AllAxesRun(xs, u, dtype)
    ensures axis.AxisInt? && (axis.i == -1 || axis.i >= |xs[0].shape|) ==>
              Dispatch(xs, u, axis, dtype, out) == NewAxisRun(xs, u.op, dtype, out)
    ensures axis.AxisInt? && axis.i != -1 && axis.i < |xs[0].shape| ==>
              Dispatch(xs, u, axis, dtype, out) == ExistingAxisRun(xs, u, axis.i, dtype)
  {
    if axis.AxisInt? && axis.i != -1 && axis.i >= |xs[0].shape| {
      var src := Iterable(xs, NoLengthInfo);
      assert CastAll(xs, xs[0].dtype) == xs;
      assert StreamItems(src) == Ok(xs);
    }
  }

  // ---------------------------------------------------------------------------
  // New axis

  /** The number of leading arrays of `xs` that have the shape `s`. */
  function ShapedPrefix(xs: seq<Array>, s: seq<nat>): (m: nat)
    ensures m <= |xs|
    ensures forall k :: 0 <= k < m ==> xs[k].shape == s
    ensures m < |xs| ==> xs[m].shape != s
  {
    if xs == [] || xs[0].shape != s then 0
    else
      var m := 1 + ShapedPrefix(xs[1..], s);
      assert forall k :: 1 <= k < m ==> xs[k] == xs[1..][k - 1];
      m
  }

  /** The element-wise fold of `f` over the first `n` arrays, all of shape `s`. */
  function Accumulated(xs: seq<Array>, f: (Value, Value) -> Value, s: seq<nat>, n: nat): (r: Tensor)
    requires 1 <= n <= |xs| && forall k :: 0 <= k < n ==> xs[k].shape == s
    ensures HasShape(r, s)
  {
    assert AllShaped(xs[..n], s);
    FoldZip(f, Datas(xs[..n], s), s)
  }

  /** One more array folds in element-wise, as `ufunc(acc, array, out=acc)` does. */
  lemma AccumulatedStep(xs: seq<Array>, f: (Value, Value) -> Value, s: seq<nat>, n: nat)
    requires 1 <= n < |xs| && forall k :: 0 <= k <= n ==> xs[k].shape == s
    ensures Accumulated(xs, f, s, n + 1) == Zip(f, Accumulated(xs, f, s, n), xs[n].data, s)
  {
    assert AllShaped(xs[..n + 1], s) && AllShaped(xs[..n], s);
    assert Datas(xs[..n + 1], s)[..n] == Datas(xs[..n], s);
  }

  /** `_ireduce_ufunc_new_axis` drained: yield `k` is the fold of the first `k + 1` arrays,
      tagged with the `out` buffer's type, or else `dtype`, or else the first array's type. An
      `out` buffer or a later array of another shape raises ValueError. */
  function NewAxisRun(xs: seq<Array>, f: (Value, Value) -> Value, dtype: Option<DType>, out: Option<OutBuffer>): (r: Run<Array>)
    requires |xs| > 0
  {
    var s := xs[0].shape;
    if out.Some? && out.value.shape != s then Run([], Some(Exception(ValueError, ShapeMismatch)))
    else
      var d := if out.Some? then out.value.dtype else dtype.GetOr(xs[0].dtype);
      var m := ShapedPrefix(xs, s);
      Run(seq(m, k requires 0 <= k < m => NdArray(s, d, Accumulated(xs, f, s, k + 1))),
          if m < |xs| then Some(Exception(ValueError, ShapeMismatch)) else None)
  }

  /** What `numpy.stack` followed by a reduction along the new last axis makes of the first
      `k + 1` arrays, all of the first array's shape. */
  function StackedReduction(xs: seq<Array>, u: Ufunc, k: nat): Tensor
    requires k < |xs| && AllShaped(xs, xs[0].shape)
  {
    var s := xs[0].shape;
    assert AllShaped(xs[..k + 1], s);
    ReduceAxis(u.op, u.identity, StackLast(Datas(xs[..k + 1], s), s), s + [k + 1], |s|)
  }

  /** New-axis mode yields once per input when the shapes agree, and yield `k` is the
      reduction, along a new trailing axis, of the stack of the first `k + 1` arrays. */
  lemma NewAxisMeaning(xs: seq<Array>, u: Ufunc, dtype: Option<DType>, out: Option<OutBuffer>)
    requires |xs| > 0 && AllShaped(xs, xs[0].shape)
    requires out.Some? ==> out.value.shape == xs[0].shape
    ensures NewAxisRun(xs, u.op, dtype, out).raised.None?
    ensures |NewAxisRun(xs, u.op, dtype, out).outputs| == |xs|
    ensures NewAxisRun(xs, u.op, dtype, out).outputs[0].data == xs[0].data
    ensures forall k :: 0 <= k < |xs| ==>
              && NewAxisRun(xs, u.op, dtype, out).outputs[k].shape == xs[0].shape
              && NewAxisRun(xs, u.op, dtype, out).outputs[k].dtype
                 == (if out.Some? then out.value.dtype else dtype.GetOr(xs[0].dtype))
              && NewAxisRun(xs, u.op, dtype, out).outputs[k].data == StackedReduction(xs, u, k)
  {
    var s := xs[0].shape;
    var run := NewAxisRun(xs, u.op, dtype, out);
    assert ShapedPrefix(xs, s) == |xs|;
    forall k | 0 <= k < |xs|
      ensures run.outputs[k].shape == s
      ensures run.outputs[k].dtype == (if out.Some? then out.value.dtype else dtype.GetOr(xs[0].dtype))
      ensures run.outputs[k].data == StackedReduction(xs, u, k)
    {
      NewAxisYield(xs, u, dtype, out, k);
    }
  }

  /** New-axis yield `k` is the reduction of the stack of the first `k + 1` arrays. */
  lemma NewAxisYield(xs: seq<Array>, u: Ufunc, dtype: Option<DType>, out: Option<OutBuffer>, k: nat)
    requires k < |xs| && AllShaped(xs, xs[0].shape)
    requires out.Some? ==> out.value.shape == xs[0].shape
    ensures |NewAxisRun(xs, u.op, dtype, out).outputs| == |xs|
    ensures NewAxisRun(xs, u.op, dtype, out).outputs[k].shape == xs[0].shape
    ensures NewAxisRun(xs, u.op, dtype, out).outputs[k].dtype
            == (if out.Some? then out.value.dtype else dtype.GetOr(xs[0].dtype))
    ensures NewAxisRun(xs, u.op, dtype, out).outputs[k].data == StackedReduction(xs, u, k)
  {
    var s := xs[0].shape;
    assert ShapedPrefix(xs, s) == |xs|;
    assert AllShaped(xs[..k + 1], s);
    ReduceStackLast(u.op, u.identity, Datas(xs[..k + 1], s), s);
  }

  /** Each new-axis yield is the previous one combined element-wise with the next array. */
  lemma NewAxisSteps(xs: seq<Array>, u: Ufunc, dtype: Option<DType>, out: Option<OutBuffer>)
    requires |xs| > 0 && AllShaped(xs, xs[0].shape)
    requires out.Some? ==> out.value.shape == xs[0].shape
    ensures |NewAxisRun(xs, u.op, dtype, out).outputs| == |xs|
    ensures forall k :: 1 <= k < |xs| ==>
              NewAxisRun(xs, u.op, dtype, out).outputs[k].data ==
                Zip(u.op, NewAxisRun(xs, u.op, dtype, out).outputs[k - 1].data, xs[k].data, xs[0].shape)
  {
    var s := xs[0].shape;
    var run := NewAxisRun(xs, u.op, dtype, out);
    assert ShapedPrefix(xs, s) == |xs|;
    forall k | 1 <= k < |xs| ensures run.outputs[k].data == Zip(u.op, run.outputs[k - 1].data, xs[k].data, s) {
      AccumulatedStep(xs, u.op, s, k);
    }
  }

  /** The contents of the accumulator at each of the first `n` yields. */
  function Snapshots(xs: seq<Array>, f: (Value, Value) -> Value, s: seq<nat>, n: nat): (r: seq<seq<Value>>)
    requires n <= |xs| && forall k :: 0 <= k < n ==> xs[k].shape == s
    ensures |r| == n
  {
    seq(n, t requires 0 <= t < n => Ravel(Accumulated(xs, f, s, t + 1)))
  }

  /** The first yield holds the first array's elements. */
  lemma SnapshotsFirst(xs: seq<Array>, f: (Value, Value) -> Value, s: seq<nat>)
    requires |xs| > 0 && xs[0].shape == s
    ensures Snapshots(xs, f, s, 1) == [Ravel(xs[0].data)]
    ensures |Ravel(xs[0].data)| == Size(s)
  {
    assert Accumulated(xs, f, s, 1) == xs[0].data;
    RavelLength(xs[0].data, s);
  }

  /** `ufunc(acc, array, out=acc)` turns the contents of one yield into those of the next. */
  lemma SnapshotsStep(xs: seq<Array>, f: (Value, Value) -> Value, s: seq<nat>, n: nat)
    requires 1 <= n < |xs| && forall k :: 0 <= k <= n ==> xs[k].shape == s
    ensures |Snapshots(xs, f, s, n)[n - 1]| == |Ravel(xs[n].data)| == Size(s)
    ensures Snapshots(xs, f, s, n + 1) == Snapshots(xs, f, s, n) + [ZipValues(f, Snapshots(xs, f, s, n)[n - 1], Ravel(xs[n].data))]
  {
    AccumulatedStep(xs, f, s, n);
    RavelZip(f, Accumulated(xs, f, s, n), xs[n].data, s);
    RavelLength(xs[n].data, s);
    assert Snapshots(xs, f, s, n + 1)[..n] == Snapshots(xs, f, s, n);
  }

  /** The yields of the new-axis run are the snapshots of the arrays of the leading shape. */
  lemma NewAxisRunSnapshots(xs: seq<Array>, f: (Value, Value) -> Value, dtype: Option<DType>, out: Option<OutBuffer>)
    requires |xs| > 0 && (out.Some? ==> out.value.shape == xs[0].shape)
    ensures |NewAxisRun(xs, f, dtype, out).outputs| == ShapedPrefix(xs, xs[0].shape)
    ensures NewAxisRun(xs, f, dtype, out).raised
            == if ShapedPrefix(xs, xs[0].shape) < |xs| then Some(Exception(ValueError, ShapeMismatch)) else None
    ensures forall k :: 0 <= k < |NewAxisRun(xs, f, dtype, out).outputs| ==>
              Ravel(NewAxisRun(xs, f, dtype, out).outputs[k].data) == Snapshots(xs, f, xs[0].shape, ShapedPrefix(xs, xs[0].shape))[k]
  {
  }

  /** `_ireduce_ufunc_new_axis` as the in-place loop it is: one accumulator buffer (the caller's
      `out` after `out[:] = first`, or a fresh copy of the first array) is updated by
      `ufunc(acc, array, out=acc)` and yielded after every step. `snapshots[k]` is the buffer's
      content at yield `k`; every yield is that same buffer, `acc`. */
  method NewAxisLoop(xs: seq<Array>, f: (Value, Value) -> Value, dtype: Option<DType>, out: Option<OutBuffer>)
    returns (acc: array<Value>, snapshots: seq<seq<Value>>, raised: Option<Exception>)
    requires |xs| > 0
    requires out.Some? ==> out.value.data.Length == Size(out.value.shape)
    modifies if out.Some? then {out.value.data} else {}
    ensures |snapshots| == |NewAxisRun(xs, f, dtype, out).outputs| && raised == NewAxisRun(xs, f, dtype, out).raised
    ensures forall k :: 0 <= k < |snapshots| ==> snapshots[k] == Ravel(NewAxisRun(xs, f, dtype, out).outputs[k].data)
    ensures out.Some? ==> acc == out.value.data
    ensures out.None? ==> fresh(acc)
    ensures snapshots != [] ==> acc[..] == snapshots[|snapshots| - 1]
  {
    var s := xs[0].shape;
    if out.Some? && out.value.shape != s {
      return out.value.data, [], Some(Exception(ValueError, ShapeMismatch));
    }
    NewAxisRunSnapshots(xs, f, dtype, out);
    var first := Ravel(xs[0].data);
    SnapshotsFirst(xs, f, s);
    if out.Some? {
      acc := out.value.data;
      CopyInto(acc, first);
    } else {
      acc := new Value[|first|](i requires 0 <= i < |first| => first[i]);
      assert acc[..] == first;
    }
    snapshots, raised := FoldInPlace(acc, xs, f, s);
  }

  /** The loop of `_ireduce_ufunc_new_axis` once the accumulator holds the first array:
      `ufunc(acc, array, out=acc)` for every further array of the same shape. */
  method FoldInPlace(acc: array<Value>, xs: seq<Array>, f: (Value, Value) -> Value, s: seq<nat>)
    returns (snapshots: seq<seq<Value>>, raised: Option<Exception>)
    requires |xs| > 0 && xs[0].shape == s && acc[..] == Ravel(xs[0].data)
    modifies acc
    ensures snapshots == Snapshots(xs, f, s, ShapedPrefix(xs, s))
    ensures raised == if ShapedPrefix(xs, s) < |xs| then Some(Exception(ValueError, ShapeMismatch)) else None
    ensures acc[..] == snapshots[|snapshots| - 1]
  {
    ghost var m := ShapedPrefix(xs, s);
    SnapshotsFirst(xs, f, s);
    snapshots := [acc[..]];
    var k := 1;
    while k < |xs|
      invariant 1 <= k <= m
      invariant snapshots == Snapshots(xs, f, s, k)
      invariant acc[..] == snapshots[k - 1]
    {
      if xs[k].shape != s {
        assert k == m;
        return snapshots, Some(Exception(ValueError, ShapeMismatch));
      }
      assert k < m;
      SnapshotsStep(xs, f, s, k);
      ghost var next := ZipValues(f, snapshots[k - 1], Ravel(xs[k].data));
      ZipInPlace(acc, Ravel(xs[k].data), f);
      assert acc[..] == next;
      snapshots := snapshots + [acc[..]];
      k := k + 1;
    }
    assert m == |xs|;
    raised := None;
  }

  // ---------------------------------------------------------------------------
  // Existing axis

  /** `np.atleast_1d(ufunc.reduce(a, axis=ax, dtype=dtype))`, or the exception it raises. */
  function Reduced(a: Array, u: Ufunc, ax: int, dtype: Option<DType>): (r: Result<Array>)
    ensures r.Err? <==> !(0 <= ax < |a.shape|) || (a.shape[ax] == 0 && u.identity.None?)
    ensures r.Ok? ==> r.value.shape == (if |a.shape| == 1 then [1] else RemoveAxis(a.shape, ax))
  {
    if !(0 <= ax < |a.shape|) then Err(Exception(ValueError, AxisNotSupported))
    else if a.shape[ax] == 0 && u.identity.None? then Err(Exception(ValueError, ZeroSizeReductionWithoutIdentity))
    else Ok(AtLeast1d(NdArray(RemoveAxis(a.shape, ax), dtype.GetOr(a.dtype), ReduceAxis(u.op, u.identity, a.data, a.shape, ax))))
  }

  /** The reduction of every array of the stream, in stream order; the generator computes
      each one only when it reaches it, and stops at the first that fails. */
  function ReducedEach(xs: seq<Array>, u: Ufunc, ax: int, dtype: Option<DType>): (reds: seq<Result<Array>>)
    ensures |reds| == |xs| && forall t :: 0 <= t < |xs| ==> reds[t] == Reduced(xs[t], u, ax, dtype)
  {
    seq(|xs|, t requires 0 <= t < |xs| => Reduced(xs[t], u, ax, dtype))
  }

  /** `_ireduce_ufunc_existing_axis` drained. The axis is checked against the first array only
      once the generator is resumed; the first yield is the first array's reduction; the
      unguarded `next` for the second array turns a one-array stream into RuntimeError. */
  function ExistingAxisRun(xs: seq<Array>, u: Ufunc, ax: int, dtype: Option<DType>): (run: Run<Array>)
    requires |xs| > 0
    ensures |run.outputs| <= |xs|
  {
    if !(0 <= ax < |xs[0].shape|) then Run([], Some(Exception(ValueError, AxisNotSupported)))
    else StackRun(ReducedEach(xs, u, ax, dtype))
  }

  /** What the existing-axis loop yields, given the per-array reductions `reds`. */
  function StackRun(reds: seq<Result<Array>>): (run: Run<Array>)
    requires |reds| > 0
    ensures |run.outputs| <= |reds|
  {
    match reds[0]
    case Err(e) => Run([], Some(e))
    case Ok(r) =>
      assert AllShaped([r], r.shape);
      Prepend(r, StackFrom(reds, [r]))
  }

  /** The rest of the run once `rs` holds the first `|rs|` reductions: each further reduction
      extends the stack along the trailing axis. */
  function StackFrom(reds: seq<Result<Array>>, rs: seq<Array>): (run: Run<Array>)
    requires 1 <= |rs| <= |reds| && AllShaped(rs, rs[0].shape)
    ensures |run.outputs| <= |reds| - |rs|
    decreases |reds| - |rs|
  {
    var j := |rs|;
    if j == |reds| then Run([], if j == 1 then Some(StoppedInsideGenerator) else None)
    else
      match reds[j]
      case Err(e) => Run([], Some(e))
      case Ok(r) =>
        if r.shape != rs[0].shape then Run([], Some(Exception(ValueError, ShapeMismatch)))
        else
          assert AllShaped(rs + [r], rs[0].shape);
          Prepend(Stack(rs + [r]).value, StackFrom(reds, rs + [r]))
  }

  /** The first `n` reductions all succeeded. */
  predicate OksUpTo(reds: seq<Result<Array>>, n: nat) {
    n <= |reds| && forall t :: 0 <= t < n ==> reds[t].Ok?
  }

  /** The first `n` reductions' values. */
  function Values(reds: seq<Result<Array>>, n: nat): (vs: seq<Array>)
    requires OksUpTo(reds, n)
    ensures |vs| == n && forall t :: 0 <= t < n ==> reds[t] == Ok(vs[t])
  {
    seq(n, t requires 0 <= t < n => reds[t].value)
  }

  /** One more successful reduction extends the values. */
  lemma ValuesStep(reds: seq<Result<Array>>, n: nat)
    requires OksUpTo(reds, n + 1)
    ensures OksUpTo(reds, n)
    ensures Values(reds, n + 1) == Values(reds, n) + [reds[n].value]
  {
  }

  /** From the stack of the first `|rs|` reductions on, the yield that follows the first
      `n` reductions is the stack of those `n` reductions. */
  lemma {:induction false} StackFromStacks(reds: seq<Result<Array>>, rs: seq<Array>, j: nat)
    requires j == |rs| && 1 <= j <= |reds| && AllShaped(rs, rs[0].shape)
    requires OksUpTo(reds, j) && rs == Values(reds, j)
    ensures StacksAfter(reds, j, StackFrom(reds, rs).outputs)
    decreases |reds| - j
  {
    if j < |reds| && reds[j].Ok? && reds[j].value.shape == rs[0].shape {
      var rs' := rs + [reds[j].value];
      StackFromStep(reds, rs, reds[j].value);
      ValuesStep(reds, j);
      assert rs'[0] == rs[0];
      StackFromStacks(reds, rs', j + 1);
      StackFromStacksStep(reds, rs, j);
    } else {
      StackFromStacksStop(reds, rs);
    }
  }

  /** Where the reductions end, fail or change shape there is nothing more to stack. */
  lemma StackFromStacksStop(reds: seq<Result<Array>>, rs: seq<Array>)
    requires 1 <= |rs| <= |reds| && AllShaped(rs, rs[0].shape)
    requires !(|rs| < |reds| && reds[|rs|].Ok? && reds[|rs|].value.shape == rs[0].shape)
    ensures StackFrom(reds, rs).outputs == []
  {
    StackFromStops(reds, rs);
  }

  /** One step of `StackFromStacks`: given the claim for the first `j + 1` reductions, it
      holds for the first `j`. */
  lemma StackFromStacksStep(reds: seq<Result<Array>>, rs: seq<Array>, j: nat)
    requires j == |rs| && 1 <= j < |reds| && AllShaped(rs, rs[0].shape)
    requires OksUpTo(reds, j) && rs == Values(reds, j)
    requires reds[j].Ok? && reds[j].value.shape == rs[0].shape
    requires AllShaped(rs + [reds[j].value], rs[0].shape)
    requires StacksAfter(reds, j + 1, StackFrom(reds, rs + [reds[j].value]).outputs)
    ensures StacksAfter(reds, j, StackFrom(reds, rs).outputs)
  {
    var r := reds[j].value;
    var rs' := rs + [r];
    StackFromStep(reds, rs, r);
    ValuesStep(reds, j);
    assert Values(reds, j + 1) == rs';
    assert Stack(rs').Ok?;
    var rest := StackFrom(reds, rs').outputs;
    assert StackFrom(reds, rs).outputs == [Stack(rs').value] + rest;
    StacksAfterCons(reds, j, Stack(rs').value, rest);
  }

  /** `outs` are the yields that follow the first `k` reductions: yield `i` is the stack of
      the first `k + i + 1` reductions. */
  ghost predicate StacksAfter(reds: seq<Result<Array>>, k: nat, outs: seq<Array>) {
    forall n :: k < n <= k + |outs| ==>
      && OksUpTo(reds, n)
      && Stack(Values(reds, n)).Ok?
      && outs[n - k - 1] == Stack(Values(reds, n)).value
  }

  /** The stack of the first `k + 1` reductions, followed by the yields after them, are the
      yields after the first `k`. */
  lemma StacksAfterCons(reds: seq<Result<Array>>, k: nat, x: Array, rest: seq<Array>)
    requires OksUpTo(reds, k + 1) && Stack(Values(reds, k + 1)).Ok? && x == Stack(Values(reds, k + 1)).value
    requires StacksAfter(reds, k + 1, rest)
    ensures StacksAfter(reds, k, [x] + rest)
  {
    var outs := [x] + rest;
    forall n | k < n <= k + |outs|
      ensures && OksUpTo(reds, n)
              && Stack(Values(reds, n)).Ok?
              && outs[n - k - 1] == Stack(Values(reds, n)).value
    {
      if n > k + 1 {
        assert outs[n - k - 1] == rest[n - (k + 1) - 1];
      }
    }
  }

  /** `run` is the existing-axis run over the reductions `reds`: yield 0 is reduction 0, and
      yield `k >= 1` has shape `(*r, k + 1)`, where `r` is the shape of yield 0, and its slice
      `j` along the last axis is reduction `j`. */
  ghost predicate StacksOf(run: Run<Array>, reds: seq<Result<Array>>) {
    && |run.outputs| <= |reds|
    && (run.outputs != [] ==> reds[0] == Ok(run.outputs[0]))
    && forall k :: 1 <= k < |run.outputs| ==>
         && run.outputs[k].shape == run.outputs[0].shape + [k + 1]
         && forall j :: 0 <= j <= k ==>
              && reds[j].Ok?
              && SliceLast(run.outputs[k].data, run.outputs[0].shape, k + 1, j) == reds[j].value.data
  }

  /** The stack run, from its first yield on, stacks the reductions. */
  lemma StackRunStacks(reds: seq<Result<Array>>)
    requires |reds| > 0
    ensures StacksOf(StackRun(reds), reds)
  {
    var run := StackRun(reds);
    if reds[0].Ok? {
      var r := reds[0].value;
      assert AllShaped([r], r.shape);
      assert [r] == Values(reds, 1);
      StackFromStacks(reds, [r], 1);
      var rest := StackFrom(reds, [r]);
      assert run == Prepend(r, rest);
      assert StacksAfter(reds, 1, rest.outputs);
      forall k | 1 <= k < |run.outputs|
        ensures run.outputs[k].shape == r.shape + [k + 1]
        ensures forall j :: 0 <= j <= k ==>
                  reds[j].Ok? && SliceLast(run.outputs[k].data, r.shape, k + 1, j) == reds[j].value.data
      {
        assert run.outputs[k] == rest.outputs[(k + 1) - 1 - 1];
        assert OksUpTo(reds, k + 1);
        var vs := Values(reds, k + 1);
        assert run.outputs[k] == Stack(vs).value;
        assert vs[0] == r;
        StackSlices(vs);
      }
    }
  }

  /** Existing-axis mode, end to end: the run stacks the reductions of the arrays along the
      axis, yield `k >= 1` holding the first `k + 1` of them along a new last axis. */
  lemma ExistingAxisStacks(xs: seq<Array>, u: Ufunc, ax: int, dtype: Option<DType>)
    requires |xs| > 0
    ensures StacksOf(ExistingAxisRun(xs, u, ax, dtype), ReducedEach(xs, u, ax, dtype))
  {
    if 0 <= ax < |xs[0].shape| {
      StackRunStacks(ReducedEach(xs, u, ax, dtype));
    }
  }

  /** A stream holding one array, reduced along one of its axes, yields that array's reduction
      and then raises RuntimeError (PEP 479), so `reduce_ufunc` raises instead of returning it. */
  lemma ExistingAxisSingleArray(a: Array, c: Callable, ax: int, dtype: Option<DType>)
    requires Prologue(c, false).None?
    requires 0 <= ax < |a.shape| && Reduced(a, c.ufunc, ax, dtype).Ok?
    ensures ExistingAxisRun([a], c.ufunc, ax, dtype) == Run([Reduced(a, c.ufunc, ax, dtype).value], Some(StoppedInsideGenerator))
    ensures ReduceUfunc(BareArray(a), c, AxisInt(ax), dtype, false, None) == Err(StoppedInsideGenerator)
  {
    var r := Reduced(a, c.ufunc, ax, dtype).value;
    var reds := ReducedEach([a], c.ufunc, ax, dtype);
    assert AllShaped([r], r.shape);
    assert StackFrom(reds, [r]) == Run([], Some(StoppedInsideGenerator));
    DispatchRule([a], c.ufunc, AxisInt(ax), dtype, None);
    assert StreamItems(BareArray(a)) == Ok([a]);
    var run := Run([r], Some(StoppedInsideGenerator));
    assert ExistingAxisRun([a], c.ufunc, ax, dtype) == run;
    assert IReduceStream([a], c, AxisInt(ax), dtype, false, None) == Ok(run);
    assert IReduceUfunc(BareArray(a), c, AxisInt(ax), dtype, false, None) == Ok(run);
  }

  /** The ways the run ends after the first `|rs|` reductions: the stream is exhausted
      (RuntimeError when that happens right after the first array), a reduction fails, or a
      reduction has another shape. */
  lemma StackFromStops(reds: seq<Result<Array>>, rs: seq<Array>)
    requires 1 <= |rs| <= |reds| && AllShaped(rs, rs[0].shape)
    ensures |rs| == |reds| ==> StackFrom(reds, rs) == Run([], if |rs| == 1 then Some(StoppedInsideGenerator) else None)
    ensures |rs| < |reds| && reds[|rs|].Err? ==> StackFrom(reds, rs) == Run([], Some(reds[|rs|].error))
    ensures |rs| < |reds| && reds[|rs|].Ok? && reds[|rs|].value.shape != rs[0].shape ==>
              StackFrom(reds, rs) == Run([], Some(Exception(ValueError, ShapeMismatch)))
  {
  }

  /** One more successful reduction of the same shape is stacked onto the run. */
  lemma StackFromStep(reds: seq<Result<Array>>, rs: seq<Array>, r: Array)
    requires 1 <= |rs| < |reds| && AllShaped(rs, rs[0].shape)
    requires reds[|rs|] == Ok(r) && r.shape == rs[0].shape
    ensures AllShaped(rs + [r], rs[0].shape)
    ensures StackFrom(reds, rs) == Prepend(Stack(rs + [r]).value, StackFrom(reds, rs + [r]))
  {
    var s := rs[0].shape;
    forall k | 0 <= k < |rs| + 1 ensures (rs + [r])[k].shape == s {
      if k < |rs| {
        assert (rs + [r])[k] == rs[k];
      }
    }
  }

  /** `np.concatenate([acc, np.expand_dims(x, -1)], axis=-1)` for `acc` of shape `(*s, j)`. */
  function AppendAlongLast(acc: Array, x: Array, s: seq<nat>, j: nat): (r: Array)
    requires acc.shape == s + [j] && x.shape == s
    ensures r.shape == s + [j + 1] && r.dtype == acc.dtype
  {
    assert AgreeExcept(s + [j], s + [1], |s|);
    assert (s + [j])[|s| := j + 1] == s + [j + 1];
    NdArray(s + [j + 1], acc.dtype, Concatenate(acc.data, StackLast([x.data], s), s + [j], s + [1], |s|))
  }

  /** `np.concatenate([stack, np.expand_dims(x, -1)], axis=-1)` is the stack with one more
      array. */
  lemma ConcatenateGrowsStack(rs: seq<Array>, x: Array, s: seq<nat>)
    requires |rs| > 0 && AllShaped(rs, s) && rs[0].shape == s && x.shape == s
    ensures AllShaped(rs + [x], s)
    ensures AgreeExcept(s + [|rs|], s + [1], |s|) && HasShape(Stack(rs).value.data, s + [|rs|])
    ensures Stack(rs + [x]).value == AppendAlongLast(Stack(rs).value, x, s, |rs|)
  {
    assert AllShaped(rs + [x], s);
    ConcatenateOntoStack(Datas(rs, s), x.data, s);
    assert Datas(rs + [x], s) == Datas(rs, s) + [x.data];
  }

  /** The opening of the existing-axis run: the first reduction, then the run from it. */
  lemma ExistingAxisOpening(xs: seq<Array>, u: Ufunc, ax: int, dtype: Option<DType>)
    requires |xs| > 0 && 0 <= ax < |xs[0].shape| && Reduced(xs[0], u, ax, dtype).Ok?
    ensures AllShaped([Reduced(xs[0], u, ax, dtype).value], Reduced(xs[0], u, ax, dtype).value.shape)
    ensures ExistingAxisRun(xs, u, ax, dtype)
            == Prepend(Reduced(xs[0], u, ax, dtype).value, StackFrom(ReducedEach(xs, u, ax, dtype), [Reduced(xs[0], u, ax, dtype).value]))
  {
    var r := Reduced(xs[0], u, ax, dtype).value;
    assert AllShaped([r], r.shape);
  }

  /** How the existing-axis run goes on after the first yield `r0`: RuntimeError for a single
      array, the second reduction's exception, ValueError for another shape, or else the stack
      of the first two reductions followed by the run from that stack. */
  lemma ExistingAxisSecond(xs: seq<Array>, u: Ufunc, ax: int, dtype: Option<DType>, r0: Array)
    requires |xs| > 0 && 0 <= ax < |xs[0].shape| && Reduced(xs[0], u, ax, dtype) == Ok(r0)
    ensures |xs| == 1 ==> ExistingAxisRun(xs, u, ax, dtype) == Run([r0], Some(StoppedInsideGenerator))
    ensures |xs| > 1 && Reduced(xs[1], u, ax, dtype).Err? ==>
              ExistingAxisRun(xs, u, ax, dtype) == Run([r0], Some(Reduced(xs[1], u, ax, dtype).error))
    ensures |xs| > 1 && Reduced(xs[1], u, ax, dtype).Ok? && Reduced(xs[1], u, ax, dtype).value.shape != r0.shape ==>
              ExistingAxisRun(xs, u, ax, dtype) == Run([r0], Some(Exception(ValueError, ShapeMismatch)))
    ensures |xs| > 1 && Reduced(xs[1], u, ax, dtype).Ok? && Reduced(xs[1], u, ax, dtype).value.shape == r0.shape ==>
              var rs := [r0, Reduced(xs[1], u, ax, dtype).value];
              && AllShaped(rs, r0.shape) && Stack(rs).Ok?
              && ExistingAxisRun(xs, u, ax, dtype) == Prepend(r0, Prepend(Stack(rs).value, StackFrom(ReducedEach(xs, u, ax, dtype), rs)))
  {
    var reds := ReducedEach(xs, u, ax, dtype);
    ExistingAxisOpening(xs, u, ax, dtype);
    StackFromStops(reds, [r0]);
    if |xs| > 1 && reds[1].Ok? && reds[1].value.shape == r0.shape {
      StackFromStep(reds, [r0], reds[1].value);
      assert [r0] + [reds[1].value] == [r0, reds[1].value];
    }
  }

  /** `_ireduce_ufunc_existing_axis` as the code it is: the first reduction, `np.stack` for the
      second array, then the loop that grows the stack. */
  method ExistingAxisLoop(xs: seq<Array>, u: Ufunc, ax: int, dtype: Option<DType>) returns (run: Run<Array>)
    requires |xs| > 0
    ensures run == ExistingAxisRun(xs, u, ax, dtype)
  {
    if !(0 <= ax < |xs[0].shape|) {
      return Run([], Some(Exception(ValueError, AxisNotSupported)));
    }
    var first := Reduced(xs[0], u, ax, dtype);
    if first.Err? {
      return Run([], Some(first.error));
    }
    var rest := StackFromSecond(xs, u, ax, dtype, first.value);
    run := Prepend(first.value, rest);
  }

  /** The existing-axis generator after its first yield `r0`: the unguarded `next` for the
      second array, `np.stack` of the first two reductions, then the loop. */
  method StackFromSecond(xs: seq<Array>, u: Ufunc, ax: int, dtype: Option<DType>, r0: Array) returns (rest: Run<Array>)
    requires |xs| > 0 && 0 <= ax < |xs[0].shape| && Reduced(xs[0], u, ax, dtype) == Ok(r0)
    ensures ExistingAxisRun(xs, u, ax, dtype) == Prepend(r0, rest)
  {
    ExistingAxisSecond(xs, u, ax, dtype, r0);
    if |xs| == 1 {
      return Run([], Some(StoppedInsideGenerator));
    }
    var second := Reduced(xs[1], u, ax, dtype);
    if second.Err? {
      return Run([], Some(second.error));
    }
    if second.value.shape != r0.shape {
      return Run([], Some(Exception(ValueError, ShapeMismatch)));
    }
    var rs: seq<Array> := [r0, second.value];
    var acc := Stack(rs).value;
    var more, raised := GrowStack(xs, u, ax, dtype, rs, acc);
    rest := Prepend(acc, Run(more, raised));
  }

  /** The loop of `_ireduce_ufunc_existing_axis`: with `acc` the stack of `rs`, each further
      reduction of the same shape is concatenated onto `acc` along the last axis and yielded. */
  method GrowStack(xs: seq<Array>, u: Ufunc, ax: int, dtype: Option<DType>, rs0: seq<Array>, acc0: Array)
    returns (outputs: seq<Array>, raised: Option<Exception>)
    requires 1 <= |rs0| <= |xs| && AllShaped(rs0, rs0[0].shape)
    requires Stack(rs0).Ok? && acc0 == Stack(rs0).value
    ensures Run(outputs, raised) == StackFrom(ReducedEach(xs, u, ax, dtype), rs0)
  {
    ghost var reds := ReducedEach(xs, u, ax, dtype);
    ghost var whole := StackFrom(reds, rs0);
    var s := rs0[0].shape;
    var rs: seq<Array> := rs0;
    var acc: Array := acc0;
    outputs := [];
    var j := |rs0|;
    assert whole == PrependAll(outputs, StackFrom(reds, rs));
    while j < |xs|
      invariant |rs0| <= j <= |xs| && |rs| == j && rs[0].shape == s && AllShaped(rs, s)
      invariant acc == Stack(rs).value
      invariant whole == PrependAll(outputs, StackFrom(reds, rs))
      decreases |xs| - j
    {
      var r := Reduced(xs[j], u, ax, dtype);
      StackFromStops(reds, rs);
      if r.Err? {
        return outputs, Some(r.error);
      }
      var x := r.value;
      if x.shape != s {
        return outputs, Some(Exception(ValueError, ShapeMismatch));
      }
      StackFromStep(reds, rs, x);
      ConcatenateGrowsStack(rs, x, s);
      acc := AppendAlongLast(acc, x, s, j);
      PrependAllStep(outputs, acc, StackFrom(reds, rs + [x]));
      rs := rs + [x];
      outputs := outputs + [acc];
      j := j + 1;
    }
    StackFromStops(reds, rs);
    raised := if j == 1 then Some(StoppedInsideGenerator) else None;
  }


  // ---------------------------------------------------------------------------
  // All axes

  /** `ufunc.reduce(a, axis=None)`: NumPy refuses to reduce more than one axis at once with a
      ufunc that is not reorderable; otherwise every element is folded in row-major order. */
  function ReduceAllAxes(u: Ufunc, a: Array): (r: Result<Value>)
    ensures r.Err? <==> (!u.reorderable && |a.shape| >= 2) || (Ravel(a.data) == [] && u.identity.None?)
    ensures !u.reorderable && |a.shape| >= 2 ==> r == Err(Exception(ValueError, NotReorderable))
    ensures u.reorderable || |a.shape| <= 1 ==> r == ReduceAll(u.op, u.identity, a.data)
  {
    if !u.reorderable && |a.shape| >= 2 then Err(Exception(ValueError, NotReorderable))
    else ReduceAll(u.op, u.identity, a.data)
  }

  /** NumPy lets `u` reduce every array of `xs` over all of its axes. */
  predicate AllAxesAllowed(u: Ufunc, xs: seq<Array>) {
    u.reorderable || forall k :: 0 <= k < |xs| ==> |xs[k].shape| <= 1
  }

  /** A 0-d array holding `v`. */
  function Scalar0d(v: Value, d: DType): Array {
    NdArray([], d, Scalar(v))
  }

  /** `_ireduce_ufunc_all_axes` drained: the first array reduced over all axes, then
      `ufunc.reduce([acc, ufunc.reduce(array, axis=None)])` for every later array. */
  function AllAxesRun(xs: seq<Array>, u: Ufunc, dtype: Option<DType>): Run<Array>
    requires |xs| > 0
  {
    var d := dtype.GetOr(xs[0].dtype);
    match ReduceAllAxes(u, xs[0])
    case Err(e) => Run([], Some(e))
    case Ok(v) => AllAxesFrom(xs, u, d, 1, v)
  }

  /** The rest of the all-axes run, from the yield of `acc`, the value after `j` arrays. */
  function AllAxesFrom(xs: seq<Array>, u: Ufunc, d: DType, j: nat, acc: Value): Run<Array>
    requires 1 <= j <= |xs|
    decreases |xs| - j
  {
    Prepend(Scalar0d(acc, d),
      if j == |xs| then Run([], None)
      else
        match ReduceAllAxes(u, xs[j])
        case Err(e) => Run([], Some(e))
        case Ok(v) => AllAxesFrom(xs, u, d, j + 1, Reduce(u.op, [acc, v])))
  }

  /** The elements of the first `n` arrays, one array after the other. */
  function ElementsOf(xs: seq<Array>, n: nat): seq<Value>
    requires n <= |xs|
  {
    Flatten(seq(n, k requires 0 <= k < n => Ravel(xs[k].data)))
  }

  /** Adding one array's elements to the first `j`. */
  lemma ElementsOfStep(xs: seq<Array>, j: nat)
    requires j < |xs|
    ensures ElementsOf(xs, j + 1) == ElementsOf(xs, j) + Ravel(xs[j].data)
  {
    var init := seq(j, k requires 0 <= k < j => Ravel(xs[k].data));
    assert seq(j + 1, k requires 0 <= k < j + 1 => Ravel(xs[k].data)) == init + [Ravel(xs[j].data)];
    FlattenAppend(init, Ravel(xs[j].data));
  }

  /** One step of the all-axes fold: combining the running value with the next array's
      reduction is the reduction of one more array's elements. */
  lemma AllAxesStep(xs: seq<Array>, u: Ufunc, j: nat, acc: Value)
    requires Associative(u.op) && 1 <= j < |xs|
    requires Ravel(xs[j].data) != []
    requires ElementsOf(xs, j) != [] && acc == Reduce(u.op, ElementsOf(xs, j))
    ensures ElementsOf(xs, j + 1) != []
    ensures Reduce(u.op, [acc, Reduce(u.op, Ravel(xs[j].data))]) == Reduce(u.op, ElementsOf(xs, j + 1))
  {
    var v := Reduce(u.op, Ravel(xs[j].data));
    ElementsOfStep(xs, j);
    ReduceConcat(u.op, ElementsOf(xs, j), Ravel(xs[j].data));
    assert [acc, v][..1] == [acc];
    assert Reduce(u.op, [acc]) == acc;
  }

  /** Array `n` is non-empty, and folding the first `n` arrays' elements and then array `n`'s
      is folding the first `n + 1` arrays' elements. */
  ghost predicate FoldComposesAt(xs: seq<Array>, f: (Value, Value) -> Value, n: nat)
    requires 1 <= n < |xs|
  {
    && Ravel(xs[n].data) != []
    && ElementsOf(xs, n) != [] && ElementsOf(xs, n + 1) != []
    && Reduce(f, [Reduce(f, ElementsOf(xs, n)), Reduce(f, Ravel(xs[n].data))]) == Reduce(f, ElementsOf(xs, n + 1))
  }

  /** The all-axes fold composes after every array but the first. */
  ghost predicate FoldsCompose(xs: seq<Array>, f: (Value, Value) -> Value) {
    forall n :: 1 <= n < |xs| ==> FoldComposesAt(xs, f, n)
  }

  /** The elements of the first `n >= 1` arrays include the first array's. */
  lemma {:induction false} ElementsOfNonEmpty(xs: seq<Array>, n: nat)
    requires 1 <= n <= |xs| && Ravel(xs[0].data) != []
    ensures ElementsOf(xs, n) != []
  {
    ElementsOfStep(xs, n - 1);
    if n == 1 {
      assert ElementsOf(xs, 0) == Flatten([]) == [];
    } else {
      ElementsOfNonEmpty(xs, n - 1);
    }
  }

  /** For an associative ufunc and non-empty arrays, the all-axes fold composes. */
  lemma FoldsComposeHolds(xs: seq<Array>, u: Ufunc)
    requires |xs| > 0 && Associative(u.op)
    requires forall k :: 0 <= k < |xs| ==> Ravel(xs[k].data) != []
    ensures FoldsCompose(xs, u.op)
  {
    forall n | 1 <= n < |xs|
      ensures FoldComposesAt(xs, u.op, n)
    {
      ElementsOfNonEmpty(xs, n);
      AllAxesStep(xs, u, n, Reduce(u.op, ElementsOf(xs, n)));
    }
  }

  /** From the yield after `j` arrays on, every later array is folded in: the run yields
      once per remaining array, and the yield after `n` arrays is the fold of their elements. */
  lemma {:induction false} AllAxesFromTotal(xs: seq<Array>, u: Ufunc, d: DType, j: nat, acc: Value)
    requires 1 <= j <= |xs| && FoldsCompose(xs, u.op) && AllAxesAllowed(u, xs)
    requires ElementsOf(xs, j) != [] && acc == Reduce(u.op, ElementsOf(xs, j))
    ensures AllAxesFromFolds(xs, u, d, j, acc)
    decreases |xs| - j
  {
    AllAxesFromStep(xs, u, d, j, acc);
    if j < |xs| {
      assert FoldComposesAt(xs, u.op, j);
      var v := Reduce(u.op, Ravel(xs[j].data));
      assert ReduceAllAxes(u, xs[j]) == Ok(v);
      var acc' := Reduce(u.op, [acc, v]);
      assert acc' == Reduce(u.op, ElementsOf(xs, j + 1));
      AllAxesFromTotal(xs, u, d, j + 1, acc');
      AllAxesFromFoldsCons(xs, u, d, j, acc, acc');
    }
  }

  /** What `AllAxesFromTotal` concludes about the run from the yield after `j` arrays. */
  ghost predicate AllAxesFromFolds(xs: seq<Array>, u: Ufunc, d: DType, j: nat, acc: Value)
    requires 1 <= j <= |xs|
  {
    && AllAxesFrom(xs, u, d, j, acc).raised.None?
    && |AllAxesFrom(xs, u, d, j, acc).outputs| == |xs| - j + 1
    && forall n :: j <= n <= |xs| ==>
         ElementsOf(xs, n) != [] &&
         AllAxesFrom(xs, u, d, j, acc).outputs[n - j] == Scalar0d(Reduce(u.op, ElementsOf(xs, n)), d)
  }

  /** The folds of the run after `j + 1` arrays extend to the run after `j`, one yield earlier. */
  lemma AllAxesFromFoldsCons(xs: seq<Array>, u: Ufunc, d: DType, j: nat, acc: Value, acc': Value)
    requires 1 <= j < |xs|
    requires ElementsOf(xs, j) != [] && acc == Reduce(u.op, ElementsOf(xs, j))
    requires ReduceAllAxes(u, xs[j]).Ok?
    requires acc' == Reduce(u.op, [acc, ReduceAllAxes(u, xs[j]).value])
    requires AllAxesFromFolds(xs, u, d, j + 1, acc')
    ensures AllAxesFromFolds(xs, u, d, j, acc)
  {
    var rest := AllAxesFrom(xs, u, d, j + 1, acc');
    var run := AllAxesFrom(xs, u, d, j, acc);
    assert run == Prepend(Scalar0d(acc, d), rest);
    PrependFolds(xs, u, d, j, acc, rest);
  }

  /** Putting the yield after `j` arrays in front of the folds from `j + 1` on gives the folds
      from `j` on. */
  lemma PrependFolds(xs: seq<Array>, u: Ufunc, d: DType, j: nat, acc: Value, rest: Run<Array>)
    requires 1 <= j < |xs|
    requires ElementsOf(xs, j) != [] && acc == Reduce(u.op, ElementsOf(xs, j))
    requires rest.raised.None? && |rest.outputs| == |xs| - j
    requires forall n :: j + 1 <= n <= |xs| ==>
               ElementsOf(xs, n) != [] && rest.outputs[n - (j + 1)] == Scalar0d(Reduce(u.op, ElementsOf(xs, n)), d)
    ensures Prepend(Scalar0d(acc, d), rest).raised.None?
    ensures |Prepend(Scalar0d(acc, d), rest).outputs| == |xs| - j + 1
    ensures forall n :: j <= n <= |xs| ==>
              ElementsOf(xs, n) != [] &&
              Prepend(Scalar0d(acc, d), rest).outputs[n - j] == Scalar0d(Reduce(u.op, ElementsOf(xs, n)), d)
  {
    var run := Prepend(Scalar0d(acc, d), rest);
    assert forall i :: 1 <= i < |run.outputs| ==> run.outputs[i] == rest.outputs[i - 1];
  }

  /** All-axes mode over non-empty arrays and an associative ufunc that NumPy lets reduce them
      yields once per input, and yield `k` is the ufunc folded over every element of the first
      `k + 1` arrays. */
  lemma AllAxesTotal(xs: seq<Array>, u: Ufunc, dtype: Option<DType>)
    requires |xs| > 0 && Associative(u.op) && AllAxesAllowed(u, xs)
    requires forall k :: 0 <= k < |xs| ==> Ravel(xs[k].data) != []
    ensures AllAxesRun(xs, u, dtype).raised.None? && |AllAxesRun(xs, u, dtype).outputs| == |xs|
    ensures forall n :: 1 <= n <= |xs| ==> ElementsOf(xs, n) != []
    ensures forall k :: 0 <= k < |xs| ==>
              AllAxesRun(xs, u, dtype).outputs[k] == Scalar0d(Reduce(u.op, ElementsOf(xs, k + 1)), dtype.GetOr(xs[0].dtype))
  {
    var d := dtype.GetOr(xs[0].dtype);
    ElementsOfStep(xs, 0);
    assert ElementsOf(xs, 0) == Flatten([]) == [];
    assert ElementsOf(xs, 1) == Ravel(xs[0].data);
    var v := Reduce(u.op, Ravel(xs[0].data));
    assert ReduceAllAxes(u, xs[0]) == Ok(v);
    FoldsComposeHolds(xs, u);
    AllAxesFromTotal(xs, u, d, 1, v);
    var run := AllAxesRun(xs, u, dtype);
    assert AllAxesFromFolds(xs, u, d, 1, v);
    assert run == AllAxesFrom(xs, u, d, 1, v);
    forall k | 0 <= k < |xs|
      ensures run.outputs[k] == Scalar0d(Reduce(u.op, ElementsOf(xs, k + 1)), d)
    {
      assert run.outputs[k] == run.outputs[(k + 1) - 1];
    }
  }

  /** A ufunc that is not reorderable stops the all-axes run at the first array of rank 2 or
      more with ValueError, after one yield for each array before it. */
  lemma {:induction false} AllAxesNotReorderable(xs: seq<Array>, u: Ufunc, dtype: Option<DType>, j: nat)
    requires j < |xs| && !u.reorderable && |xs[j].shape| >= 2
    requires forall k :: 0 <= k < j ==> ReduceAllAxes(u, xs[k]).Ok?
    ensures |AllAxesRun(xs, u, dtype).outputs| == j
    ensures AllAxesRun(xs, u, dtype).raised == Some(Exception(ValueError, NotReorderable))
  {
    if j > 0 {
      var v := ReduceAllAxes(u, xs[0]).value;
      AllAxesFromNotReorderable(xs, u, dtype.GetOr(xs[0].dtype), 1, v, j);
    }
  }

  /** The all-axes run after `i` arrays reaches the array `j` that cannot be reduced. */
  lemma {:induction false} AllAxesFromNotReorderable(xs: seq<Array>, u: Ufunc, d: DType, i: nat, acc: Value, j: nat)
    requires 1 <= i <= j < |xs| && !u.reorderable && |xs[j].shape| >= 2
    requires forall k :: 0 <= k < j ==> ReduceAllAxes(u, xs[k]).Ok?
    ensures |AllAxesFrom(xs, u, d, i, acc).outputs| == j - i + 1
    ensures AllAxesFrom(xs, u, d, i, acc).raised == Some(Exception(ValueError, NotReorderable))
    decreases j - i
  {
    AllAxesFromStep(xs, u, d, i, acc);
    if i < j {
      var acc' := Reduce(u.op, [acc, ReduceAllAxes(u, xs[i]).value]);
      AllAxesFromNotReorderable(xs, u, d, i + 1, acc', j);
    }
  }

  /** `_ireduce_ufunc_all_axes` as the loop it is. */
  method AllAxesLoop(xs: seq<Array>, u: Ufunc, dtype: Option<DType>) returns (run: Run<Array>)
    requires |xs| > 0
    ensures run == AllAxesRun(xs, u, dtype)
  {
    var d := dtype.GetOr(xs[0].dtype);
    var first := ReduceAllAxes(u, xs[0]);
    if first.Err? {
      return Run([], Some(first.error));
    }
    var acc := first.value;
    ghost var whole := AllAxesRun(xs, u, dtype);
    assert whole == AllAxesFrom(xs, u, d, 1, acc);
    var outputs: seq<Array> := [];
    var j := 1;
    while true
      invariant 1 <= j <= |xs|
      invariant whole == Run(outputs + AllAxesFrom(xs, u, d, j, acc).outputs, AllAxesFrom(xs, u, d, j, acc).raised)
      decreases |xs| - j
    {
      AllAxesFromStep(xs, u, d, j, acc);
      outputs := outputs + [Scalar0d(acc, d)];
      if j == |xs| {
        return Run(outputs, None);
      }
      var reduced := ReduceAllAxes(u, xs[j]);
      if reduced.Err? {
        return Run(outputs, Some(reduced.error));
      }
      acc := Reduce(u.op, [acc, reduced.value]);
      j := j + 1;
    }
  }

  /** The three ways the all-axes run goes on after the yield of `acc`. */
  lemma AllAxesFromStep(xs: seq<Array>, u: Ufunc, d: DType, j: nat, acc: Value)
    requires 1 <= j <= |xs|
    ensures j == |xs| ==> AllAxesFrom(xs, u, d, j, acc) == Run([Scalar0d(acc, d)], None)
    ensures j < |xs| && ReduceAllAxes(u, xs[j]).Err? ==>
              AllAxesFrom(xs, u, d, j, acc) == Run([Scalar0d(acc, d)], Some(ReduceAllAxes(u, xs[j]).error))
    ensures j < |xs| && ReduceAllAxes(u, xs[j]).Ok? ==>
              AllAxesFrom(xs, u, d, j, acc)
              == Prepend(Scalar0d(acc, d), AllAxesFrom(xs, u, d, j + 1, Reduce(u.op, [acc, ReduceAllAxes(u, xs[j]).value])))
  {
  }

  // ---------------------------------------------------------------------------
  // No NaN with ignore_nan

  /** A ufunc that never makes NaN out of numbers and whose identity, if any, is a number. */
  ghost predicate NumberUfunc(u: Ufunc) {
    KeepsNumbers(u.op) && (u.identity.Some? ==> u.identity.value.Num?)
  }

  /** No array of `xs` holds NaN. */
  predicate AllNoNaN(xs: seq<Array>) {
    forall k :: 0 <= k < |xs| ==> NoNaN(xs[k].data)
  }

  /** A NaN-free value in front of NaN-free yields. */
  lemma PrependNoNaN(x: Array, run: Run<Array>)
    requires NoNaN(x.data) && AllNoNaN(run.outputs)
    ensures AllNoNaN(Prepend(x, run).outputs)
  {
    var outs := Prepend(x, run).outputs;
    forall k | 0 <= k < |outs| ensures NoNaN(outs[k].data) {
      if k > 0 {
        assert outs[k] == run.outputs[k - 1];
      }
    }
  }

  /** `nan_to_num` with a number as fill value leaves no NaN in an inexact array; an array of
      any other type is passed through and must be NaN-free already. */
  lemma IgnoreNanNoNaN(arrays: seq<Array>, identity: Value)
    requires identity.Num?
    requires forall k :: 0 <= k < |arrays| ==> IsInexact(arrays[k].dtype) || NoNaN(arrays[k].data)
    ensures AllNoNaN(IgnoreNan(arrays, identity))
  {
    var r := IgnoreNan(arrays, identity);
    forall k | 0 <= k < |arrays| ensures NoNaN(r[k].data) {
      if IsInexact(arrays[k].dtype) {
        NanToNumRemovesNaN(Ravel(arrays[k].data), arrays[k].dtype, identity);
      }
    }
  }

  /** Along a new axis, every yield of NaN-free arrays is NaN-free. */
  lemma NewAxisNoNaN(xs: seq<Array>, f: (Value, Value) -> Value, dtype: Option<DType>, out: Option<OutBuffer>)
    requires |xs| > 0 && KeepsNumbers(f) && AllNoNaN(xs)
    ensures AllNoNaN(NewAxisRun(xs, f, dtype, out).outputs)
  {
    var s := xs[0].shape;
    var run := NewAxisRun(xs, f, dtype, out);
    forall k | 0 <= k < |run.outputs| ensures NoNaN(run.outputs[k].data) {
      assert AllShaped(xs[..k + 1], s);
      var ts := Datas(xs[..k + 1], s);
      assert run.outputs[k].data == FoldZip(f, ts, s);
      assert forall j :: 0 <= j < |ts| ==> ts[j] == xs[j].data;
      FoldNoNaN(f, ts, s);
    }
  }

  /** The reduction of a NaN-free array along an existing axis is NaN-free. */
  lemma ReducedNoNaN(a: Array, u: Ufunc, ax: int, dtype: Option<DType>)
    requires NumberUfunc(u) && NoNaN(a.data)
    ensures Reduced(a, u, ax, dtype).Ok? ==> NoNaN(Reduced(a, u, ax, dtype).value.data)
  {
    if Reduced(a, u, ax, dtype).Ok? {
      ReduceAxisNoNaN(u.op, u.identity, a.data, a.shape, ax);
    }
  }

  /** Stacking NaN-free reductions yields NaN-free arrays. */
  lemma {:induction false} StackFromNoNaN(reds: seq<Result<Array>>, rs: seq<Array>)
    requires 1 <= |rs| <= |reds| && AllShaped(rs, rs[0].shape) && AllNoNaN(rs)
    requires forall t :: 0 <= t < |reds| && reds[t].Ok? ==> NoNaN(reds[t].value.data)
    ensures AllNoNaN(StackFrom(reds, rs).outputs)
    decreases |reds| - |rs|
  {
    var j := |rs|;
    if j < |reds| && reds[j].Ok? && reds[j].value.shape == rs[0].shape {
      var s := rs[0].shape;
      var rs' := rs + [reds[j].value];
      assert AllShaped(rs', s);
      assert AllNoNaN(rs') by {
        forall k | 0 <= k < |rs'| ensures NoNaN(rs'[k].data) {
          if k < j {
            assert rs'[k] == rs[k];
          }
        }
      }
      StackFromNoNaN(reds, rs');
      StackLastNoNaN(Datas(rs', s), s);
      assert Stack(rs').value.data == StackLast(Datas(rs', s), s);
      PrependNoNaN(Stack(rs').value, StackFrom(reds, rs'));
    }
  }

  /** Along an existing axis, every yield of NaN-free arrays is NaN-free. */
  lemma ExistingAxisNoNaN(xs: seq<Array>, u: Ufunc, ax: int, dtype: Option<DType>)
    requires |xs| > 0 && NumberUfunc(u) && AllNoNaN(xs)
    ensures AllNoNaN(ExistingAxisRun(xs, u, ax, dtype).outputs)
  {
    if 0 <= ax < |xs[0].shape| {
      var reds := ReducedEach(xs, u, ax, dtype);
      forall t | 0 <= t < |reds| && reds[t].Ok? ensures NoNaN(reds[t].value.data) {
        ReducedNoNaN(xs[t], u, ax, dtype);
      }
      if reds[0].Ok? {
        var r := reds[0].value;
        assert AllShaped([r], r.shape);
        StackFromNoNaN(reds, [r]);
        PrependNoNaN(r, StackFrom(reds, [r]));
      }
    }
  }

  /** The reduction of a NaN-free array over all axes is a number. */
  lemma ReduceAllNumber(u: Ufunc, a: Array)
    requires NumberUfunc(u) && NoNaN(a.data)
    ensures ReduceAllAxes(u, a).Ok? ==> ReduceAllAxes(u, a).value.Num?
  {
    if Ravel(a.data) != [] {
      ReduceKeepsNumbers(u.op, Ravel(a.data));
    }
  }

  /** The all-axes run of NaN-free arrays, from a number, yields NaN-free arrays. */
  lemma {:induction false} AllAxesFromNoNaN(xs: seq<Array>, u: Ufunc, d: DType, j: nat, acc: Value)
    requires 1 <= j <= |xs| && NumberUfunc(u) && AllNoNaN(xs) && acc.Num?
    ensures AllNoNaN(AllAxesFrom(xs, u, d, j, acc).outputs)
    decreases |xs| - j
  {
    AllAxesFromStep(xs, u, d, j, acc);
    var x := Scalar0d(acc, d);
    assert Ravel(x.data) == [acc];
    if j < |xs| {
      var r := ReduceAllAxes(u, xs[j]);
      if r.Ok? {
        ReduceAllNumber(u, xs[j]);
        ReduceKeepsNumbers(u.op, [acc, r.value]);
        var acc' := Reduce(u.op, [acc, r.value]);
        AllAxesFromNoNaN(xs, u, d, j + 1, acc');
        PrependNoNaN(x, AllAxesFrom(xs, u, d, j + 1, acc'));
      }
    }
  }

  /** Over all axes, every yield of NaN-free arrays is NaN-free. */
  lemma AllAxesNoNaN(xs: seq<Array>, u: Ufunc, dtype: Option<DType>)
    requires |xs| > 0 && NumberUfunc(u) && AllNoNaN(xs)
    ensures AllNoNaN(AllAxesRun(xs, u, dtype).outputs)
  {
    var r := ReduceAllAxes(u, xs[0]);
    if r.Ok? {
      ReduceAllNumber(u, xs[0]);
      AllAxesFromNoNaN(xs, u, dtype.GetOr(xs[0].dtype), 1, r.value);
    }
  }

  /** Whichever mode the axis selects, every yield of NaN-free arrays is NaN-free. */
  lemma DispatchNoNaN(xs: seq<Array>, u: Ufunc, axis: Axis, dtype: Option<DType>, out: Option<OutBuffer>)
    requires |xs| > 0 && NumberUfunc(u) && AllNoNaN(xs)
    ensures AllNoNaN(Dispatch(xs, u, axis, dtype, out).outputs)
  {
    match axis
    case AxisNone =>
      AllAxesNoNaN(xs, u, dtype);
    case AxisInt(i) =>
      if i == -1 {
        NewAxisNoNaN(xs, u.op, dtype, out);
      } else if i >= |xs[0].shape| {
        var src := Iterable(xs, NoLengthInfo);
        var r := IReduceUfunc(src, NumpyUfunc(u), AxisInt(-1), dtype, false, out);
        if r.Ok? {
          var ys := StreamItems(src).value;
          assert AllNoNaN(ys) by {
            forall k | 0 <= k < |ys| ensures NoNaN(ys[k].data) {
              assert ys[k].data == xs[k].data;
            }
          }
          assert r == IReduceStream(ys, NumpyUfunc(u), AxisInt(-1), dtype, false, out);
          assert r.value == NewAxisRun(ys, u.op, dtype, out);
          NewAxisNoNaN(ys, u.op, dtype, out);
        }
      } else {
        ExistingAxisNoNaN(xs, u, i, dtype);
      }
  }

  /** With `ignore_nan`, every NaN of the stream becomes the ufunc's identity before any mode
      runs, so no yield holds NaN, whatever the axis; the stream's arrays of a type that is not
      inexact are left as they are. */
  lemma IReduceIgnoreNanNoNaN(src: Source, c: Callable, axis: Axis, dtype: Option<DType>, out: Option<OutBuffer>)
    requires c.NumpyUfunc? && c.ufunc.identity.Some? && c.ufunc.identity.value.Num?
    requires KeepsNumbers(c.ufunc.op)
    requires StreamItems(src).Ok? ==>
               forall k :: 0 <= k < |StreamItems(src).value| ==>
                 IsInexact(StreamItems(src).value[k].dtype) || NoNaN(StreamItems(src).value[k].data)
    ensures IReduceUfunc(src, c, axis, dtype, true, out).Ok? ==>
              AllNoNaN(IReduceUfunc(src, c, axis, dtype, true, out).value.outputs)
  {
    var r := IReduceUfunc(src, c, axis, dtype, true, out);
    if r.Ok? {
      var arrays := StreamItems(src).value;
      var xs := IgnoreNan(arrays, c.ufunc.identity.value);
      IgnoreNanNoNaN(arrays, c.ufunc.identity.value);
      assert r == IReduceStream(arrays, c, axis, dtype, true, out);
      assert r.value == Dispatch(xs, c.ufunc, axis, dtype, out);
      DispatchNoNaN(xs, c.ufunc, axis, dtype, out);
    }
  }

  // ---------------------------------------------------------------------------
  // reduce_ufunc, preduce_ufunc

  /** `reduce_ufunc(...)`: `last(ireduce_ufunc(...))`. */
  function ReduceUfunc(src: Source, c: Callable, axis: Axis, dtype: Option<DType>, ignoreNan: bool,
                       out: Option<OutBuffer>): (r: Result<Array>)
    ensures r.Err? && StreamItems(src).Ok? && Prologue(c, ignoreNan).None? ==>
              var run := IReduceUfunc(src, c, axis, dtype, ignoreNan, out).value;
              run.raised.Some? || run.outputs == []
    ensures r.Ok? ==> IReduceUfunc(src, c, axis, dtype, ignoreNan, out).Ok?
                      && var run := IReduceUfunc(src, c, axis, dtype, ignoreNan, out).value;
                      run.raised.None? && run.outputs != [] && r.value == run.outputs[|run.outputs| - 1]
  {
    var run :- IReduceUfunc(src, c, axis, dtype, ignoreNan, out);
    LastOf(run)
  }

  /** The reduction of each chunk by a worker (`reduce_ufunc` on the chunk's tuple), in chunk
      order; the first failing chunk's exception propagates. */
  function ReduceChunks(chunks: seq<seq<Array>>, c: Callable, axis: Axis, dtype: Option<DType>, ignoreNan: bool): (r: Result<seq<Array>>)
    ensures r.Ok? ==> |r.value| == |chunks|
    ensures r.Ok? ==> forall i :: 0 <= i < |chunks| ==>
                        ReduceUfunc(Iterable(chunks[i], HasLen(|chunks[i]|)), c, axis, dtype, ignoreNan, None) == Ok(r.value[i])
  {
    if chunks == [] then Ok([])
    else
      var first :- ReduceUfunc(Iterable(chunks[0], HasLen(|chunks[0]|)), c, axis, dtype, ignoreNan, None);
      var rest :- ReduceChunks(chunks[1..], c, axis, dtype, ignoreNan);
      Ok([first] + rest)
  }

  /** `preduce_ufunc(arrays, ufunc, axis, dtype, ignore_nan, processes, ntotal)`: one process is
      `reduce_ufunc`; otherwise chunks of `max(1, int(ntotal / pool size))` arrays (1 without
      `ntotal`) are reduced separately and their results reduced again, in chunk order. */
  function PReduceUfunc(src: Source, c: Callable, axis: Axis, dtype: Option<DType>, ignoreNan: bool,
                        processes: Option<int>, ntotal: Option<int>, cpuCount: nat): (r: Result<Array>)
    ensures StreamItems(src).Err? ==> r == Err(StreamItems(src).error)
    ensures processes == Some(1) ==> r == ReduceUfunc(src, c, axis, dtype, ignoreNan, None)
  {
    var arrays :- StreamItems(src);
    if processes == Some(1) then
      ReduceStreamItems(src, arrays, c, axis, dtype, ignoreNan);
      ReduceUfunc(Iterable(arrays, NoLengthInfo), c, axis, dtype, ignoreNan, None)
    else
      var p :- PoolSize(processes, cpuCount);
      var n := ChunkSize(None, ntotal, p);
      var partials :- ReduceChunks(Chunks(arrays, n), c, axis, dtype, ignoreNan);
      ReduceUfunc(Iterable(partials, NoLengthInfo), c, axis, dtype, ignoreNan, None)
  }

  /** Re-wrapping the items of a stream gives the same items back (they already share one data type). */
  lemma ReduceStreamItems(src: Source, arrays: seq<Array>, c: Callable, axis: Axis, dtype: Option<DType>, ignoreNan: bool)
    requires StreamItems(src) == Ok(arrays)
    ensures StreamItems(Iterable(arrays, NoLengthInfo)) == Ok(arrays)
    ensures ReduceUfunc(Iterable(arrays, NoLengthInfo), c, axis, dtype, ignoreNan, None) == ReduceUfunc(src, c, axis, dtype, ignoreNan, None)
  {
    assert CastAll(arrays, arrays[0].dtype) == arrays;
  }

  // ---------------------------------------------------------------------------
  // preduce_ufunc with more than one process

  /** All arrays of `xs` have the first one's data type. */
  predicate OneType(xs: seq<Array>) {
    forall k :: 0 <= k < |xs| ==> xs[k].dtype == xs[0].dtype
  }

  /** The arrays of a stream share the first array's data type. */
  lemma StreamItemsOneType(src: Source)
    requires StreamItems(src).Ok?
    ensures OneType(StreamItems(src).value)
  {
  }

  /** A stream whose arrays already share one data type produces them unchanged. */
  lemma OneTypeStream(ys: seq<Array>, hint: LengthInfo)
    requires |ys| > 0 && OneType(ys) && LengthHintOf(hint, NotImplemented).Ok?
    ensures StreamItems(Iterable(ys, hint)) == Ok(ys)
  {
    assert CastAll(ys, ys[0].dtype) == ys;
  }

  /** `reduce_ufunc` along a new axis, over arrays of one shape and one data type, is the
      element-wise fold of all of them. */
  lemma NewAxisReduceUfunc(ys: seq<Array>, u: Ufunc, dtype: Option<DType>, hint: LengthInfo)
    requires |ys| > 0 && OneType(ys) && AllShaped(ys, ys[0].shape)
    requires LengthHintOf(hint, NotImplemented).Ok? && CheckBinaryUfunc(NumpyUfunc(u)).None?
    ensures ReduceUfunc(Iterable(ys, hint), NumpyUfunc(u), AxisInt(-1), dtype, false, None)
            == Ok(NdArray(ys[0].shape, dtype.GetOr(ys[0].dtype), FoldZip(u.op, Datas(ys, ys[0].shape), ys[0].shape)))
  {
    var s := ys[0].shape;
    OneTypeStream(ys, hint);
    var run := NewAxisRun(ys, u.op, dtype, None);
    assert IReduceUfunc(Iterable(ys, hint), NumpyUfunc(u), AxisInt(-1), dtype, false, None)
           == IReduceStream(ys, NumpyUfunc(u), AxisInt(-1), dtype, false, None)
           == Ok(run);
    assert ShapedPrefix(ys, s) == |ys|;
    assert ys[..|ys|] == ys;
    assert run.outputs[|ys| - 1] == NdArray(s, dtype.GetOr(ys[0].dtype), Accumulated(ys, u.op, s, |ys|));
  }

  /** `reduce_ufunc` over all axes, for an associative ufunc and non-empty arrays of one data
      type that it may reduce, is the fold of every element of every array. */
  lemma AllAxesReduceUfunc(ys: seq<Array>, u: Ufunc, dtype: Option<DType>, hint: LengthInfo)
    requires |ys| > 0 && OneType(ys) && Associative(u.op) && AllAxesAllowed(u, ys)
    requires forall k :: 0 <= k < |ys| ==> Ravel(ys[k].data) != []
    requires LengthHintOf(hint, NotImplemented).Ok? && CheckBinaryUfunc(NumpyUfunc(u)).None?
    ensures ElementsOf(ys, |ys|) != []
    ensures ReduceUfunc(Iterable(ys, hint), NumpyUfunc(u), AxisNone, dtype, false, None)
            == Ok(Scalar0d(Reduce(u.op, ElementsOf(ys, |ys|)), dtype.GetOr(ys[0].dtype)))
  {
    OneTypeStream(ys, hint);
    assert IReduceUfunc(Iterable(ys, hint), NumpyUfunc(u), AxisNone, dtype, false, None)
           == IReduceStream(ys, NumpyUfunc(u), AxisNone, dtype, false, None)
           == Ok(AllAxesRun(ys, u, dtype));
    AllAxesTotal(ys, u, dtype);
  }

  /** When every chunk from the `j`-th on reduces without error, so do the workers from the
      `j`-th on. */
  lemma {:induction false} ReduceChunksFrom(chunks: seq<seq<Array>>, c: Callable, axis: Axis, dtype: Option<DType>,
                                            ignoreNan: bool, j: nat)
    requires j <= |chunks|
    requires forall i :: j <= i < |chunks| ==> ReduceUfunc(Iterable(chunks[i], HasLen(|chunks[i]|)), c, axis, dtype, ignoreNan, None).Ok?
    ensures ReduceChunks(chunks[j..], c, axis, dtype, ignoreNan).Ok?
    decreases |chunks| - j
  {
    if j < |chunks| {
      ReduceChunksFrom(chunks, c, axis, dtype, ignoreNan, j + 1);
      assert chunks[j..][0] == chunks[j] && chunks[j..][1..] == chunks[j + 1..];
    }
  }

  /** When chunk `i` reduces to `rs[i]` for every `i`, the workers' results are `rs`. */
  lemma ReduceChunksAll(chunks: seq<seq<Array>>, c: Callable, axis: Axis, dtype: Option<DType>,
                        ignoreNan: bool, rs: seq<Array>)
    requires |rs| == |chunks|
    requires forall i :: 0 <= i < |chunks| ==>
               ReduceUfunc(Iterable(chunks[i], HasLen(|chunks[i]|)), c, axis, dtype, ignoreNan, None) == Ok(rs[i])
    ensures ReduceChunks(chunks, c, axis, dtype, ignoreNan) == Ok(rs)
  {
    ReduceChunksFrom(chunks, c, axis, dtype, ignoreNan, 0);
    assert chunks[0..] == chunks;
    var r := ReduceChunks(chunks, c, axis, dtype, ignoreNan);
    assert r.value == rs;
  }

  /** The elements of a concatenation of two lists of arrays. */
  lemma ElementsOfConcat(a: seq<Array>, b: seq<Array>)
    ensures ElementsOf(a + b, |a + b|) == ElementsOf(a, |a|) + ElementsOf(b, |b|)
  {
    var pa := seq(|a|, k requires 0 <= k < |a| => Ravel(a[k].data));
    var pb := seq(|b|, k requires 0 <= k < |b| => Ravel(b[k].data));
    assert seq(|a + b|, k requires 0 <= k < |a + b| => Ravel((a + b)[k].data)) == pa + pb;
    FlattenConcat(pa, pb);
  }

  /** The elements of the chunks of a list, chunk after chunk, are the elements of the list. */
  lemma {:induction false} ElementsOfFlatten(chunks: seq<seq<Array>>)
    ensures ElementsOf(Flatten(chunks), |Flatten(chunks)|)
            == Flatten(seq(|chunks|, g requires 0 <= g < |chunks| => ElementsOf(chunks[g], |chunks[g]|)))
  {
    var es := seq(|chunks|, g requires 0 <= g < |chunks| => ElementsOf(chunks[g], |chunks[g]|));
    if chunks == [] {
      assert ElementsOf([], 0) == Flatten([]);
    } else {
      var rest := chunks[1..];
      ElementsOfFlatten(rest);
      assert es[1..] == seq(|rest|, g requires 0 <= g < |rest| => ElementsOf(rest[g], |rest[g]|));
      assert Flatten(chunks) == chunks[0] + Flatten(rest);
      ElementsOfConcat(chunks[0], Flatten(rest));
    }
  }

  /** The elements of 0-d arrays are their values, in order. */
  lemma {:induction false} ElementsOfScalars(ys: seq<Array>, n: nat)
    requires n <= |ys| && forall k :: 0 <= k < |ys| ==> ys[k].data.Scalar?
    ensures ElementsOf(ys, n) == seq(n, k requires 0 <= k < n => ys[k].data.v)
    decreases n
  {
    if n == 0 {
      assert ElementsOf(ys, 0) == Flatten([]);
    } else {
      ElementsOfStep(ys, n - 1);
      ElementsOfScalars(ys, n - 1);
      assert Ravel(ys[n - 1].data) == [ys[n - 1].data.v];
    }
  }

  /** Chunks of a list of arrays of one type are non-empty and of that type. */
  lemma ChunksOneType(xs: seq<Array>, n: nat)
    requires |xs| > 0 && n >= 1 && OneType(xs)
    ensures forall g :: 0 <= g < |Chunks(xs, n)| ==>
              |Chunks(xs, n)[g]| > 0 && OneType(Chunks(xs, n)[g]) && Chunks(xs, n)[g][0].dtype == xs[0].dtype
  {
    var chunks: seq<seq<Array>> := Chunks(xs, n);
    ChunksSizes(xs, n);
    forall g, k | 0 <= g < |chunks| && 0 <= k < |chunks[g]| ensures chunks[g][k].dtype == xs[0].dtype {
      ChunksMember(xs, n, g, k);
    }
  }

  /** Chunks of a list of arrays of shape `s` hold arrays of shape `s`. */
  lemma ChunksShaped(xs: seq<Array>, n: nat, s: seq<nat>)
    requires n >= 1 && AllShaped(xs, s)
    ensures forall g :: 0 <= g < |Chunks(xs, n)| ==> AllShaped(Chunks(xs, n)[g], s)
  {
    var chunks: seq<seq<Array>> := Chunks(xs, n);
    forall g, k | 0 <= g < |chunks| && 0 <= k < |chunks[g]| ensures chunks[g][k].shape == s {
      ChunksMember(xs, n, g, k);
    }
  }

  /** Chunks of non-empty arrays that `u` may reduce over all axes hold such arrays. */
  lemma ChunksAllAxes(xs: seq<Array>, n: nat, u: Ufunc)
    requires n >= 1 && AllAxesAllowed(u, xs) && forall k :: 0 <= k < |xs| ==> Ravel(xs[k].data) != []
    ensures forall g :: 0 <= g < |Chunks(xs, n)| ==>
              AllAxesAllowed(u, Chunks(xs, n)[g]) && forall k :: 0 <= k < |Chunks(xs, n)[g]| ==> Ravel(Chunks(xs, n)[g][k].data) != []
  {
    var chunks: seq<seq<Array>> := Chunks(xs, n);
    forall g, k | 0 <= g < |chunks| && 0 <= k < |chunks[g]|
      ensures Ravel(chunks[g][k].data) != [] && (u.reorderable || |chunks[g][k].shape| <= 1)
    {
      ChunksMember(xs, n, g, k);
    }
  }

  /** Non-empty chunks of arrays of shape `s` and one type. */
  predicate ShapedChunks(chunks: seq<seq<Array>>, s: seq<nat>, dt: DType) {
    forall g :: 0 <= g < |chunks| ==> |chunks[g]| > 0 && AllShaped(chunks[g], s) && OneType(chunks[g]) && chunks[g][0].dtype == dt
  }

  /** The new-axis reduction of each chunk: the element-wise fold of its arrays, of type `d`. */
  function ChunkFolds(chunks: seq<seq<Array>>, f: (Value, Value) -> Value, s: seq<nat>, d: DType): (ps: seq<Array>)
    requires forall g :: 0 <= g < |chunks| ==> |chunks[g]| > 0 && AllShaped(chunks[g], s)
    ensures |ps| == |chunks| && AllShaped(ps, s)
    ensures forall g :: 0 <= g < |chunks| ==> ps[g].dtype == d && ps[g].data == FoldZip(f, Datas(chunks[g], s), s)
  {
    seq(|chunks|, g requires 0 <= g < |chunks| => NdArray(s, d, FoldZip(f, Datas(chunks[g], s), s)))
  }

  /** Along a new axis, the workers' results are the folds of their chunks. */
  lemma NewAxisChunkResults(chunks: seq<seq<Array>>, u: Ufunc, dtype: Option<DType>, s: seq<nat>, dt: DType)
    requires ShapedChunks(chunks, s, dt) && CheckBinaryUfunc(NumpyUfunc(u)).None?
    ensures ReduceChunks(chunks, NumpyUfunc(u), AxisInt(-1), dtype, false) == Ok(ChunkFolds(chunks, u.op, s, dtype.GetOr(dt)))
  {
    var partials := ChunkFolds(chunks, u.op, s, dtype.GetOr(dt));
    forall g | 0 <= g < |chunks|
      ensures ReduceUfunc(Iterable(chunks[g], HasLen(|chunks[g]|)), NumpyUfunc(u), AxisInt(-1), dtype, false, None) == Ok(partials[g])
    {
      NewAxisReduceUfunc(chunks[g], u, dtype, HasLen(|chunks[g]|));
    }
    ReduceChunksAll(chunks, NumpyUfunc(u), AxisInt(-1), dtype, false, partials);
  }

  /** Folding the folds of the chunks element-wise is folding all their arrays, for an
      associative operator. */
  lemma FoldZipChunkFolds(chunks: seq<seq<Array>>, f: (Value, Value) -> Value, s: seq<nat>, d: DType)
    requires |chunks| > 0 && forall g :: 0 <= g < |chunks| ==> |chunks[g]| > 0 && AllShaped(chunks[g], s)
    requires Associative(f)
    ensures AllShaped(Flatten(chunks), s)
    ensures FoldZip(f, Datas(ChunkFolds(chunks, f, s, d), s), s) == FoldZip(f, Datas(Flatten(chunks), s), s)
  {
    var partials := ChunkFolds(chunks, f, s, d);
    var groups := seq(|chunks|, g requires 0 <= g < |chunks| => Datas(chunks[g], s));
    DatasFlatten(chunks, s);
    FoldZipGroups(f, groups, s);
    assert Datas(partials, s) == seq(|groups|, g requires 0 <= g < |groups| => FoldZip(f, groups[g], s));
  }

  /** Along a new axis, reducing the folds of the chunks is folding all their arrays, for an
      associative ufunc. */
  lemma NewAxisOfChunkFolds(chunks: seq<seq<Array>>, u: Ufunc, dtype: Option<DType>, s: seq<nat>, d: DType)
    requires |chunks| > 0 && forall g :: 0 <= g < |chunks| ==> |chunks[g]| > 0 && AllShaped(chunks[g], s)
    requires CheckBinaryUfunc(NumpyUfunc(u)).None? && Associative(u.op) && dtype.GetOr(d) == d
    ensures AllShaped(Flatten(chunks), s)
    ensures ReduceUfunc(Iterable(ChunkFolds(chunks, u.op, s, d), NoLengthInfo), NumpyUfunc(u), AxisInt(-1), dtype, false, None)
            == Ok(NdArray(s, d, FoldZip(u.op, Datas(Flatten(chunks), s), s)))
  {
    var partials := ChunkFolds(chunks, u.op, s, d);
    assert partials[0].shape == s && partials[0].dtype == d;
    NewAxisReduceUfunc(partials, u, dtype, NoLengthInfo);
    FoldZipChunkFolds(chunks, u.op, s, d);
  }

  /** Along a new axis, reducing the chunk reductions of arrays of one shape and type is
      reducing the arrays, for an associative ufunc. */
  lemma PReduceNewAxis(xs: seq<Array>, u: Ufunc, dtype: Option<DType>, n: nat)
    requires |xs| > 0 && n >= 1 && OneType(xs) && AllShaped(xs, xs[0].shape)
    requires CheckBinaryUfunc(NumpyUfunc(u)).None? && Associative(u.op)
    ensures ReduceChunks(Chunks(xs, n), NumpyUfunc(u), AxisInt(-1), dtype, false).Ok?
    ensures ReduceUfunc(Iterable(ReduceChunks(Chunks(xs, n), NumpyUfunc(u), AxisInt(-1), dtype, false).value, NoLengthInfo),
                        NumpyUfunc(u), AxisInt(-1), dtype, false, None)
            == ReduceUfunc(Iterable(xs, NoLengthInfo), NumpyUfunc(u), AxisInt(-1), dtype, false, None)
  {
    var s := xs[0].shape;
    var chunks: seq<seq<Array>> := Chunks(xs, n);
    ChunksFlatten(xs, n);
    ChunksSizes(xs, n);
    ChunksOneType(xs, n);
    ChunksShaped(xs, n, s);
    assert ShapedChunks(chunks, s, xs[0].dtype);
    NewAxisChunkResults(chunks, u, dtype, s, xs[0].dtype);
    NewAxisOfChunkFolds(chunks, u, dtype, s, dtype.GetOr(xs[0].dtype));
    NewAxisReduceUfunc(xs, u, dtype, NoLengthInfo);
  }

  /** Non-empty chunks of non-empty arrays of one type that `u` may reduce over all axes. */
  predicate AllAxesChunks(chunks: seq<seq<Array>>, u: Ufunc, dt: DType) {
    forall g :: 0 <= g < |chunks| ==>
      && |chunks[g]| > 0 && OneType(chunks[g]) && chunks[g][0].dtype == dt && AllAxesAllowed(u, chunks[g])
      && forall k :: 0 <= k < |chunks[g]| ==> Ravel(chunks[g][k].data) != []
  }

  /** The elements of each chunk. */
  function ChunkElements(chunks: seq<seq<Array>>): (es: seq<seq<Value>>)
    ensures |es| == |chunks| && forall g :: 0 <= g < |chunks| ==> es[g] == ElementsOf(chunks[g], |chunks[g]|)
  {
    seq(|chunks|, g requires 0 <= g < |chunks| => ElementsOf(chunks[g], |chunks[g]|))
  }

  /** The all-axes reduction of each chunk: a 0-d array of type `d`. */
  function ChunkTotals(chunks: seq<seq<Array>>, f: (Value, Value) -> Value, d: DType): (ps: seq<Array>)
    requires forall g :: 0 <= g < |chunks| ==> ElementsOf(chunks[g], |chunks[g]|) != []
    ensures |ps| == |chunks|
    ensures forall g :: 0 <= g < |chunks| ==> ps[g] == Scalar0d(Reduce(f, ElementsOf(chunks[g], |chunks[g]|)), d)
  {
    seq(|chunks|, g requires 0 <= g < |chunks| => Scalar0d(Reduce(f, ElementsOf(chunks[g], |chunks[g]|)), d))
  }

  /** Over all axes, the workers' results are the folds of their chunks' elements. */
  lemma AllAxesChunkResults(chunks: seq<seq<Array>>, u: Ufunc, dtype: Option<DType>, dt: DType)
    requires AllAxesChunks(chunks, u, dt) && CheckBinaryUfunc(NumpyUfunc(u)).None? && Associative(u.op)
    ensures forall g :: 0 <= g < |chunks| ==> ElementsOf(chunks[g], |chunks[g]|) != []
    ensures ReduceChunks(chunks, NumpyUfunc(u), AxisNone, dtype, false) == Ok(ChunkTotals(chunks, u.op, dtype.GetOr(dt)))
  {
    forall g | 0 <= g < |chunks| ensures ElementsOf(chunks[g], |chunks[g]|) != [] {
      ElementsOfNonEmpty(chunks[g], |chunks[g]|);
    }
    var partials := ChunkTotals(chunks, u.op, dtype.GetOr(dt));
    forall g | 0 <= g < |chunks|
      ensures ReduceUfunc(Iterable(chunks[g], HasLen(|chunks[g]|)), NumpyUfunc(u), AxisNone, dtype, false, None) == Ok(partials[g])
    {
      AllAxesReduceUfunc(chunks[g], u, dtype, HasLen(|chunks[g]|));
    }
    ReduceChunksAll(chunks, NumpyUfunc(u), AxisNone, dtype, false, partials);
  }

  /** The totals of the chunks are non-empty 0-d arrays of one type, and their elements are the
      folds of the chunks' elements. */
  lemma ChunkTotalsElements(chunks: seq<seq<Array>>, u: Ufunc, d: DType)
    requires forall g :: 0 <= g < |chunks| ==> ElementsOf(chunks[g], |chunks[g]|) != []
    ensures forall g :: 0 <= g < |ChunkElements(chunks)| ==> |ChunkElements(chunks)[g]| > 0
    ensures OneType(ChunkTotals(chunks, u.op, d)) && AllAxesAllowed(u, ChunkTotals(chunks, u.op, d))
    ensures forall k :: 0 <= k < |chunks| ==> Ravel(ChunkTotals(chunks, u.op, d)[k].data) != []
    ensures ElementsOf(ChunkTotals(chunks, u.op, d), |chunks|) == ReduceEach(u.op, ChunkElements(chunks))
  {
    var partials := ChunkTotals(chunks, u.op, d);
    assert forall k :: 0 <= k < |partials| ==> Ravel(partials[k].data) == [partials[k].data.v];
    ElementsOfScalars(partials, |partials|);
  }

  /** Over all axes, reducing the totals of the chunks is folding all their elements, for an
      associative ufunc. */
  lemma AllAxesOfChunkTotals(chunks: seq<seq<Array>>, u: Ufunc, dtype: Option<DType>, d: DType)
    requires |chunks| > 0 && forall g :: 0 <= g < |chunks| ==> ElementsOf(chunks[g], |chunks[g]|) != []
    requires CheckBinaryUfunc(NumpyUfunc(u)).None? && Associative(u.op) && dtype.GetOr(d) == d
    ensures Flatten(ChunkElements(chunks)) != []
    ensures ReduceUfunc(Iterable(ChunkTotals(chunks, u.op, d), NoLengthInfo), NumpyUfunc(u), AxisNone, dtype, false, None)
            == Ok(Scalar0d(Reduce(u.op, Flatten(ChunkElements(chunks))), d))
  {
    ChunkTotalsElements(chunks, u, d);
    AllAxesReduceUfunc(ChunkTotals(chunks, u.op, d), u, dtype, NoLengthInfo);
    ReduceFlatten(u.op, ChunkElements(chunks));
  }

  /** Over all axes, reducing the chunk reductions of non-empty arrays of one type is reducing
      the arrays, for an associative ufunc that may reduce them. */
  lemma PReduceAllAxes(xs: seq<Array>, u: Ufunc, dtype: Option<DType>, n: nat)
    requires |xs| > 0 && n >= 1 && OneType(xs) && AllAxesAllowed(u, xs)
    requires forall k :: 0 <= k < |xs| ==> Ravel(xs[k].data) != []
    requires CheckBinaryUfunc(NumpyUfunc(u)).None? && Associative(u.op)
    ensures ReduceChunks(Chunks(xs, n), NumpyUfunc(u), AxisNone, dtype, false).Ok?
    ensures ReduceUfunc(Iterable(ReduceChunks(Chunks(xs, n), NumpyUfunc(u), AxisNone, dtype, false).value, NoLengthInfo),
                        NumpyUfunc(u), AxisNone, dtype, false, None)
            == ReduceUfunc(Iterable(xs, NoLengthInfo), NumpyUfunc(u), AxisNone, dtype, false, None)
  {
    var chunks: seq<seq<Array>> := Chunks(xs, n);
    ChunksFlatten(xs, n);
    ChunksSizes(xs, n);
    ChunksOneType(xs, n);
    ChunksAllAxes(xs, n, u);
    assert AllAxesChunks(chunks, u, xs[0].dtype);
    AllAxesChunkResults(chunks, u, dtype, xs[0].dtype);
    AllAxesOfChunkTotals(chunks, u, dtype, dtype.GetOr(xs[0].dtype));
    ElementsOfFlatten(chunks);
    assert ChunkElements(chunks) == seq(|chunks|, g requires 0 <= g < |chunks| => ElementsOf(chunks[g], |chunks[g]|));
    AllAxesReduceUfunc(xs, u, dtype, NoLengthInfo);
  }

  /** The arrays can be reduced chunk by chunk along `axis` with the same result: along the
      new axis (-1) they share one shape; over all axes none is empty and the ufunc may reduce
      each of them. */
  predicate ChunkReducible(xs: seq<Array>, u: Ufunc, axis: Axis) {
    match axis
    case AxisNone => AllAxesAllowed(u, xs) && forall k :: 0 <= k < |xs| ==> Ravel(xs[k].data) != []
    case AxisInt(i) => i == -1 && forall k :: 0 <= k < |xs| ==> xs[k].shape == xs[0].shape
  }

  /** For an associative ufunc, reducing along the new axis or over all axes with a pool of
      processes (each worker reduces one chunk; the chunk results are reduced again, in chunk
      order) gives what `reduce_ufunc` gives on the whole stream. */
  lemma PReduceUfuncAssociative(src: Source, c: Callable, axis: Axis, dtype: Option<DType>,
                                processes: Option<int>, ntotal: Option<int>, cpuCount: nat)
    requires c.NumpyUfunc? && CheckBinaryUfunc(c).None? && Associative(c.ufunc.op)
    requires PoolSize(processes, cpuCount).Ok?
    requires StreamItems(src).Ok? ==> ChunkReducible(StreamItems(src).value, c.ufunc, axis)
    ensures PReduceUfunc(src, c, axis, dtype, false, processes, ntotal, cpuCount) == ReduceUfunc(src, c, axis, dtype, false, None)
  {
    if StreamItems(src).Ok? && processes != Some(1) {
      var xs := StreamItems(src).value;
      var n := ChunkSize(None, ntotal, PoolSize(processes, cpuCount).value);
      StreamItemsOneType(src);
      ReduceStreamItems(src, xs, c, axis, dtype, false);
      if axis.AxisNone? {
        PReduceAllAxes(xs, c.ufunc, dtype, n);
      } else {
        assert AllShaped(xs, xs[0].shape);
        PReduceNewAxis(xs, c.ufunc, dtype, n);
      }
    }
  }
  /** Along an existing axis and without `ntotal`, every chunk holds one array, so the first
      worker's `reduce_ufunc` runs into the unguarded `next` after that array's reduction and
      raises RuntimeError: the multi-process call raises instead of returning. */
  lemma PReduceExistingAxisRaises(src: Source, c: Callable, ax: int, dtype: Option<DType>,
                                  processes: Option<int>, cpuCount: nat)
    requires Prologue(c, false).None? && PoolSize(processes, cpuCount).Ok? && processes != Some(1)
    requires StreamItems(src).Ok?
    requires 0 <= ax < |StreamItems(src).value[0].shape|
    requires Reduced(StreamItems(src).value[0], c.ufunc, ax, dtype).Ok?
    ensures PReduceUfunc(src, c, AxisInt(ax), dtype, false, processes, None, cpuCount) == Err(StoppedInsideGenerator)
  {
    var xs := StreamItems(src).value;
    var a := xs[0];
    var n := ChunkSize(None, None, PoolSize(processes, cpuCount).value);
    assert n == 1;
    var chunks: seq<seq<Array>> := Chunks(xs, n);
    assert chunks[0] == [a];
    ExistingAxisSingleArray(a, c, ax, dtype);
    assert StreamItems(BareArray(a)) == Ok([a]);
    OneTypeStream([a], HasLen(1));
    ReduceStreamItems(BareArray(a), [a], c, AxisInt(ax), dtype, false);
    ReduceStreamItems(Iterable([a], HasLen(1)), [a], c, AxisInt(ax), dtype, false);
    assert ReduceChunks(chunks, c, AxisInt(ax), dtype, false) == Err(StoppedInsideGenerator);
  }

}
