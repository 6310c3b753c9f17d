/** The older accumulators (npstreams/numerics.py). `isum` and `iprod` copy the first array
    into an accumulator, fold every later array into it in place (`+=`, `*=`) and yield the
    accumulator after each later array, so the first array alone is never yielded.
    `inansum` and `inanprod` replace NaNs by 0 or by 1 before accumulating. */
module Numerics {
  import opened Wrappers
  import opened Seqs
  import opened NdArrays
  import opened ArrayUtils
  import Engine = Reduce

  /** `np.add` on two elements; NaN propagates. */
  function Add(x: Value, y: Value): Value {
    if x.NaN? || y.NaN? then NaN else Num(x.n + y.n)
  }

  /** `np.multiply` on two elements; NaN propagates. */
  function Mul(x: Value, y: Value): Value {
    if x.NaN? || y.NaN? then NaN else Num(x.n * y.n)
  }

  // ---------------------------------------------------------------------------
  // isum, iprod

  /** What `isum` (`f` = `Add`) or `iprod` (`f` = `Mul`) yields when drained. `next` on an
      empty stream happens inside the generator, so it surfaces as RuntimeError; a later array
      whose shape differs from the first's makes the in-place update raise ValueError. */
  function AccumulateRun(xs: seq<Array>, f: (Value, Value) -> Value, dtype: Option<DType>): Run<Array> {
    if xs == [] then Run([], Some(StoppedInsideGenerator))
    else
      var s := xs[0].shape;
      var d := dtype.GetOr(xs[0].dtype);
      var m := Engine.ShapedPrefix(xs, s);
      Run(seq(m - 1, k requires 0 <= k < m - 1 => NdArray(s, d, Engine.Accumulated(xs, f, s, k + 2))),
          if m < |xs| then Some(Exception(ValueError, ShapeMismatch)) else None)
  }

  /** `isum(arrays, dtype)` drained. */
  function ISumRun(xs: seq<Array>, dtype: Option<DType>): Run<Array> {
    AccumulateRun(xs, Add, dtype)
  }

  /** `iprod(arrays, dtype)` drained. */
  function IProdRun(xs: seq<Array>, dtype: Option<DType>): Run<Array> {
    AccumulateRun(xs, Mul, dtype)
  }

  /** The accumulators are the reduction engine's new-axis yields without the first one: the
      yield of the first array on its own is the one `isum` and `iprod` skip. */
  lemma AccumulateIsNewAxisTail(xs: seq<Array>, f: (Value, Value) -> Value, dtype: Option<DType>)
    requires xs != []
    ensures |Engine.NewAxisRun(xs, f, dtype, None).outputs| >= 1
    ensures AccumulateRun(xs, f, dtype)
            == Run(Engine.NewAxisRun(xs, f, dtype, None).outputs[1..], Engine.NewAxisRun(xs, f, dtype, None).raised)
  {
    var s := xs[0].shape;
    var m := Engine.ShapedPrefix(xs, s);
    assert m >= 1;
    var tail := Engine.NewAxisRun(xs, f, dtype, None).outputs[1..];
    assert |tail| == m - 1;
    assert forall k :: 0 <= k < m - 1 ==> AccumulateRun(xs, f, dtype).outputs[k] == tail[k];
  }

  /** Over `n >= 1` arrays of one shape, `isum`/`iprod` yield `n - 1` times and raise nothing;
      yield `k` has the first array's shape and the requested type (else the first array's),
      and holds the element-wise fold of `f` over the first `k + 2` arrays. */
  lemma AccumulateYields(xs: seq<Array>, f: (Value, Value) -> Value, dtype: Option<DType>)
    requires xs != [] && AllShaped(xs, xs[0].shape)
    ensures AccumulateRun(xs, f, dtype).raised.None?
    ensures |AccumulateRun(xs, f, dtype).outputs| == |xs| - 1
    ensures forall k :: 0 <= k < |xs| - 1 ==>
              AccumulateRun(xs, f, dtype).outputs[k]
                 == NdArray(xs[0].shape, dtype.GetOr(xs[0].dtype), FoldZip(f, Datas(xs[..k + 2], xs[0].shape), xs[0].shape))
  {
    var s := xs[0].shape;
    assert Engine.ShapedPrefix(xs, s) == |xs|;
    forall k | 0 <= k < |xs| - 1
      ensures AllShaped(xs[..k + 2], xs[0].shape)
      ensures AccumulateRun(xs, f, dtype).outputs[k]
                 == NdArray(xs[0].shape, dtype.GetOr(xs[0].dtype), FoldZip(f, Datas(xs[..k + 2], xs[0].shape), xs[0].shape))
    {
      assert AllShaped(xs[..k + 2], s);
      assert AccumulateRun(xs, f, dtype).outputs[k] == NdArray(s, dtype.GetOr(xs[0].dtype), Engine.Accumulated(xs, f, s, k + 2));
    }
  }

  /** Position `i` of yield `k` of `isum`/`iprod` over arrays of one shape is the fold of `f`
      over position `i` of the first `k + 2` arrays. */
  lemma AccumulateElement(xs: seq<Array>, f: (Value, Value) -> Value, dtype: Option<DType>, k: nat, i: nat)
    requires xs != [] && AllShaped(xs, xs[0].shape)
    requires k < |xs| - 1 && i < Size(xs[0].shape)
    ensures |AccumulateRun(xs, f, dtype).outputs| == |xs| - 1
    ensures AllShaped(xs[..k + 2], xs[0].shape)
    ensures |Ravel(AccumulateRun(xs, f, dtype).outputs[k].data)| == Size(xs[0].shape)
    ensures Ravel(AccumulateRun(xs, f, dtype).outputs[k].data)[i]
            == Reduce(f, ElementLane(Datas(xs[..k + 2], xs[0].shape), xs[0].shape, i))
  {
    AccumulateYields(xs, f, dtype);
    RavelFoldZip(f, Datas(xs[..k + 2], xs[0].shape), xs[0].shape, i);
  }

  /** The integer sum of NaN-free elements. */
  function IntSum(vs: seq<Value>): int
    requires forall j :: 0 <= j < |vs| ==> vs[j].Num?
  {
    if vs == [] then 0 else IntSum(vs[..|vs| - 1]) + vs[|vs| - 1].n
  }

  /** Folding `np.add` is the ordinary sum when no element is NaN, and NaN as soon as one is. */
  lemma {:induction false} ReduceAdd(vs: seq<Value>)
    requires |vs| > 0
    ensures (forall j :: 0 <= j < |vs| ==> vs[j].Num?) ==> Reduce(Add, vs) == Num(IntSum(vs))
    ensures NaN in vs ==> Reduce(Add, vs) == NaN
    decreases |vs|
  {
    if |vs| > 1 {
      var init := vs[..|vs| - 1];
      ReduceAdd(init);
      assert vs == init + [vs[|vs| - 1]];
    }
  }

  /** The running sum, element by element: position `i` of `isum`'s yield `k` is the sum of
      position `i` of the first `k + 2` arrays, or NaN when one of them is NaN there. */
  lemma ISumElements(xs: seq<Array>, dtype: Option<DType>, k: nat, i: nat)
    requires xs != [] && AllShaped(xs, xs[0].shape)
    requires k < |xs| - 1 && i < Size(xs[0].shape)
    ensures |ISumRun(xs, dtype).outputs| == |xs| - 1
    ensures AllShaped(xs[..k + 2], xs[0].shape)
    ensures |Ravel(ISumRun(xs, dtype).outputs[k].data)| == Size(xs[0].shape)
    ensures var lane := ElementLane(Datas(xs[..k + 2], xs[0].shape), xs[0].shape, i);
            && ((forall j :: 0 <= j < |lane| ==> lane[j].Num?) ==> Ravel(ISumRun(xs, dtype).outputs[k].data)[i] == Num(IntSum(lane)))
            && (NaN in lane ==> Ravel(ISumRun(xs, dtype).outputs[k].data)[i] == NaN)
  {
    AccumulateElement(xs, Add, dtype, k, i);
    ReduceAdd(ElementLane(Datas(xs[..k + 2], xs[0].shape), xs[0].shape, i));
  }

  /** Accumulating NaN-free arrays with such an operation yields NaN-free arrays. */
  lemma AccumulateNoNaN(xs: seq<Array>, f: (Value, Value) -> Value, dtype: Option<DType>)
    requires KeepsNumbers(f)
    requires forall k :: 0 <= k < |xs| ==> NoNaN(xs[k].data)
    ensures forall k :: 0 <= k < |AccumulateRun(xs, f, dtype).outputs| ==> NoNaN(AccumulateRun(xs, f, dtype).outputs[k].data)
  {
    forall k | 0 <= k < |AccumulateRun(xs, f, dtype).outputs| ensures NoNaN(AccumulateRun(xs, f, dtype).outputs[k].data) {
      OutputNoNaN(xs, f, dtype, k);
    }
  }

  /** Yield `k` of the accumulation of NaN-free arrays holds no NaN. */
  lemma OutputNoNaN(xs: seq<Array>, f: (Value, Value) -> Value, dtype: Option<DType>, k: nat)
    requires KeepsNumbers(f)
    requires forall k :: 0 <= k < |xs| ==> NoNaN(xs[k].data)
    requires k < |AccumulateRun(xs, f, dtype).outputs|
    ensures NoNaN(AccumulateRun(xs, f, dtype).outputs[k].data)
  {
    var s := xs[0].shape;
    assert AllShaped(xs[..k + 2], s);
    var ts := Datas(xs[..k + 2], s);
    assert AccumulateRun(xs, f, dtype).outputs[k].data == FoldZip(f, ts, s);
    FoldNoNaN(f, ts, s);
  }

  // ---------------------------------------------------------------------------
  // The loop

  /** `isum` (`f` = `Add`) and `iprod` (`f` = `Mul`) as the loop they are: the accumulator is a
      fresh copy of the first array (so no input is ever written), updated in place by every
      later array and yielded after each update. `snapshots[k]` is its content at yield `k`;
      every yield is the same buffer, `acc`. */
  method AccumulateLoop(xs: seq<Array>, f: (Value, Value) -> Value, dtype: Option<DType>)
    returns (acc: Option<array<Value>>, snapshots: seq<seq<Value>>, raised: Option<Exception>)
    ensures |snapshots| == |AccumulateRun(xs, f, dtype).outputs| && raised == AccumulateRun(xs, f, dtype).raised
    ensures forall k :: 0 <= k < |snapshots| ==> snapshots[k] == Ravel(AccumulateRun(xs, f, dtype).outputs[k].data)
    ensures acc.Some? <==> xs != []
    ensures acc.Some? ==> fresh(acc.value)
    ensures acc.Some? && snapshots != [] ==> acc.value[..] == snapshots[|snapshots| - 1]
  {
    if xs == [] {
      return None, [], Some(StoppedInsideGenerator);
    }
    var s := xs[0].shape;
    var first := Ravel(xs[0].data);
    var buffer := new Value[|first|](i requires 0 <= i < |first| => first[i]);
    assert buffer[..] == first;
    var all, r := Engine.FoldInPlace(buffer, xs, f, s);
    snapshots := all[1..];
    raised := r;
    acc := Some(buffer);
    AccumulateSnapshots(xs, f, dtype);
  }

  /** The engine's in-place snapshots after the first are the accumulators' elements. */
  lemma AccumulateSnapshots(xs: seq<Array>, f: (Value, Value) -> Value, dtype: Option<DType>)
    requires xs != []
    ensures var s := xs[0].shape;
            var all := Engine.Snapshots(xs, f, s, Engine.ShapedPrefix(xs, s));
            && |all[1..]| == |AccumulateRun(xs, f, dtype).outputs|
            && forall k :: 0 <= k < |all[1..]| ==> all[1..][k] == Ravel(AccumulateRun(xs, f, dtype).outputs[k].data)
  {
    var s := xs[0].shape;
    var all := Engine.Snapshots(xs, f, s, Engine.ShapedPrefix(xs, s));
    var run := AccumulateRun(xs, f, dtype);
    forall k | 0 <= k < |all[1..]|
      ensures all[1..][k] == Ravel(run.outputs[k].data)
    {
      assert run.outputs[k].data == Engine.Accumulated(xs, f, s, k + 2);
      assert all[1..][k] == all[k + 1];
    }
  }

  // ---------------------------------------------------------------------------
  // inansum, inanprod

  /** `np.nan_to_num(x)` with its defaults: NaN becomes 0 in an inexact array, on a copy. */
  function ZeroNaN(x: Array): (r: Array)
    ensures r.shape == x.shape && r.dtype == x.dtype
    ensures Ravel(r.data) == NanToNumValues(Ravel(x.data), x.dtype, Num(0))
  {
    NanToNumArray(x, Num(0))
  }

  /** `inansum(arrays, dtype)` drained: `isum` over the arrays with NaNs replaced by 0. */
  function INanSumRun(xs: seq<Array>, dtype: Option<DType>): Run<Array> {
    ISumRun(Map(ZeroNaN, xs), dtype)
  }

  /** `inansum` yields no NaN, provided NaN only ever appears in arrays of an inexact type. */
  lemma INanSumNoNaN(xs: seq<Array>, dtype: Option<DType>)
    requires forall k :: 0 <= k < |xs| ==> IsInexact(xs[k].dtype) || NoNaN(xs[k].data)
    ensures forall k :: 0 <= k < |INanSumRun(xs, dtype).outputs| ==> NoNaN(INanSumRun(xs, dtype).outputs[k].data)
  {
    var ys := Map(ZeroNaN, xs);
    forall k | 0 <= k < |ys| ensures NoNaN(ys[k].data) {
      if IsInexact(xs[k].dtype) {
        NanToNumRemovesNaN(Ravel(xs[k].data), xs[k].dtype, Num(0));
      }
    }
    AccumulateNoNaN(ys, Add, dtype);
  }

  /** `_nan_to_num(array, fill)` on the storage of an array: `np.array(array)` makes a copy,
      whose NaN positions are then set to `fill`; the argument is left as it was. */
  method NanToNumCopy(a: array<Value>, fill: Value) returns (r: array<Value>)
    ensures fresh(r)
    ensures |r[..]| == a.Length
    ensures forall i :: 0 <= i < a.Length ==> r[i] == (if a[i] == NaN then fill else a[i])
  {
    r := new Value[a.Length](i requires 0 <= i < a.Length reads a => a[i]);
    CopyToWhereNaN(r, fill, 0, 1);
  }

  /** `_nan_to_num(x, fill)` on an array value: every NaN becomes `fill`, whatever the type. */
  function FilledNaN(x: Array, fill: Value): (r: Array)
    ensures r.shape == x.shape && r.dtype == x.dtype
    ensures Ravel(r.data) == Map(v => Fill(fill, v), Ravel(x.data))
  {
    var f := v => Fill(fill, v);
    MapValuesShape(f, x.data, x.shape);
    NdArray(x.shape, x.dtype, MapValues(f, x.data))
  }

  /** `_nan_to_num` with the fill value 1.0 that `inanprod` binds. */
  function OneNaN(x: Array): Array {
    FilledNaN(x, Num(1))
  }

  /** `inanprod(arrays, dtype)` drained: `iprod` over the arrays with NaNs replaced by 1. */
  function INanProdRun(xs: seq<Array>, dtype: Option<DType>): Run<Array> {
    IProdRun(Map(OneNaN, xs), dtype)
  }

  /** `inanprod` never yields NaN. */
  lemma INanProdNoNaN(xs: seq<Array>, dtype: Option<DType>)
    ensures forall k :: 0 <= k < |INanProdRun(xs, dtype).outputs| ==> NoNaN(INanProdRun(xs, dtype).outputs[k].data)
  {
    var ys := Map(OneNaN, xs);
    forall k | 0 <= k < |ys| ensures NoNaN(ys[k].data) {
      var r := Ravel(ys[k].data);
      forall j | 0 <= j < |r| ensures r[j] != NaN {
      }
    }
    AccumulateNoNaN(ys, Mul, dtype);
  }
}
