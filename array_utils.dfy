/** NaN replacement (npstreams/array_utils.py). An array's storage is the flat sequence of its
    element values; a complex array stores the real and imaginary part of each element as two
    consecutive values, so its `.real` view is the even positions and its `.imag` view the odd ones. */
module ArrayUtils {
  import opened Seqs
  import opened NdArrays

  /** One element after replacement: NaN becomes `fill`, anything else stays. */
  function Fill(fill: Value, v: Value): Value {
    if v == NaN then fill else v
  }

  /** What `nan_to_num` leaves in the storage `xs` of an array of type `dtype`. */
  function NanToNumValues(xs: seq<Value>, dtype: DType, fill: Value): (r: seq<Value>)
    ensures |r| == |xs|
    ensures forall i :: 0 <= i < |xs| ==> r[i] == (if IsInexact(dtype) && xs[i] == NaN then fill else xs[i])
  {
    if IsInexact(dtype) then Map(v => Fill(fill, v), xs) else xs
  }

  /** `np.copyto(d, fill, where=np.isnan(d))` on the view of `d` made of the positions
      `start, start + stride, ...`: stride 1 is the whole array, stride 2 a real or imaginary view. */
  method CopyToWhereNaN(d: array<Value>, fill: Value, start: nat, stride: nat)
    requires stride == 1 || stride == 2
    modifies d
    ensures forall j :: 0 <= j < d.Length ==>
      d[j] == (if j >= start && (j - start) % stride == 0 && old(d[j]) == NaN then fill else old(d[j]))
  {
    var i := start;
    while i < d.Length
      invariant start <= i && (i - start) % stride == 0
      invariant forall j :: 0 <= j < d.Length ==>
        d[j] == (if start <= j < i && (j - start) % stride == 0 && old(d[j]) == NaN then fill else old(d[j]))
      decreases d.Length - i
    {
      if d[i] == NaN {
        d[i] := fill;
      }
      i := i + stride;
    }
  }

  /** `nan_to_num(array, fill_value, copy)` on an ndarray: with `copy` the result is a fresh
      array and the argument is left as it was; without it the argument itself is rewritten and
      returned. Arrays of a non-inexact type are returned with their values unchanged. */
  method NanToNum(a: array<Value>, dtype: DType, fill: Value, copy: bool) returns (r: array<Value>)
    modifies if copy then {} else {a}
    ensures copy ==> fresh(r) && a[..] == old(a[..])
    ensures !copy ==> r == a
    ensures r[..] == NanToNumValues(old(a[..]), dtype, fill)
  {
    if copy {
      r := new Value[a.Length](i requires 0 <= i < a.Length reads a => a[i]);
    } else {
      r := a;
    }
    assert r[..] == old(a[..]);
    if !IsInexact(dtype) {
      return;
    }
    if dtype == Complex {
      CopyToWhereNaN(r, fill, 0, 2);
      CopyToWhereNaN(r, fill, 1, 2);
    } else {
      CopyToWhereNaN(r, fill, 0, 1);
    }
  }

  /** Replacement leaves no NaN behind in an inexact array, unless the fill value is itself NaN. */
  lemma NanToNumRemovesNaN(xs: seq<Value>, dtype: DType, fill: Value)
    requires IsInexact(dtype) && fill != NaN
    ensures NaN !in NanToNumValues(xs, dtype, fill)
  {
    var r := NanToNumValues(xs, dtype, fill);
    forall i | 0 <= i < |r| ensures r[i] != NaN {
    }
  }

  /** `nan_to_num` on an array value, as the streaming functions apply it to each element of a stream. */
  function NanToNumArray(x: Array, fill: Value): (r: Array)
    ensures r.shape == x.shape && r.dtype == x.dtype
    ensures Ravel(r.data) == NanToNumValues(Ravel(x.data), x.dtype, fill)
  {
    if IsInexact(x.dtype) then
      var f := v => Fill(fill, v);
      MapValuesShape(f, x.data, x.shape);
      NdArray(x.shape, x.dtype, MapValues(f, x.data))
    else x
  }
}
