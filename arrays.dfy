/** N-dimensional arrays as nested lists of elements, with the few NumPy operations the
    streaming functions rely on: element-wise maps, ufunc reductions along an axis or over
    all axes, stacking along a new trailing axis and concatenation along an existing one. */
module NdArrays {
  import opened Wrappers
  import opened Seqs

  /** One array element: a number, or NaN. */
  datatype Value = Num(n: int) | NaN

  /** The data type tag of an array. Casting between tags keeps element values. */
  datatype DType = Bool | Int | Float | Complex

  /** `np.issubdtype(dtype, np.inexact)`: floating point or complex. */
  predicate IsInexact(d: DType) { d == Float || d == Complex }

  /** A 0-d element, or a list of sub-arrays along the first axis. */
  datatype Tensor = Scalar(v: Value) | Dim(items: seq<Tensor>)

  /** `t` is a rectangular nesting of the shape `s`. */
  predicate HasShape(t: Tensor, s: seq<nat>)
    decreases t
  {
    match t
    case Scalar(_) => s == []
    case Dim(items) =>
      && |s| > 0 && |items| == s[0]
      && forall i :: 0 <= i < |items| ==> HasShape(items[i], s[1..])
  }

  /** An `ndarray`: shape, dtype and contents. */
  datatype NdArray = NdArray(shape: seq<nat>, dtype: DType, data: Tensor)

  type Array = a: NdArray | HasShape(a.data, a.shape) witness NdArray([], Int, Scalar(Num(0)))

  /** Number of elements of an array of shape `s`. */
  function Size(s: seq<nat>): nat {
    if s == [] then 1 else s[0] * Size(s[1..])
  }

  /** The shape `s` with axis `ax` removed. */
  function RemoveAxis(s: seq<nat>, ax: nat): (r: seq<nat>)
    requires ax < |s|
    ensures |r| == |s| - 1
    ensures forall i :: 0 <= i < ax ==> r[i] == s[i]
    ensures forall i :: ax <= i < |r| ==> r[i] == s[i + 1]
  {
    s[..ax] + s[ax + 1..]
  }

  /** The elements in row-major (C) order: `a.ravel()`. */
  function Ravel(t: Tensor): seq<Value>
    decreases t
  {
    match t
    case Scalar(v) => [v]
    case Dim(items) => Flatten(seq(|items|, i requires 0 <= i < |items| => Ravel(items[i])))
  }

  lemma {:induction false} RavelLength(t: Tensor, s: seq<nat>)
    requires HasShape(t, s)
    ensures |Ravel(t)| == Size(s)
    decreases t
  {
    match t
    case Scalar(_) =>
    case Dim(items) =>
      var parts := seq(|items|, i requires 0 <= i < |items| => Ravel(items[i]));
      forall i | 0 <= i < |items| ensures |parts[i]| == Size(s[1..]) {
        RavelLength(items[i], s[1..]);
      }
      FlattenUniformLength(parts, Size(s[1..]));
  }

  lemma {:induction false} FlattenUniformLength<T>(parts: seq<seq<T>>, w: nat)
    requires forall i :: 0 <= i < |parts| ==> |parts[i]| == w
    ensures |Flatten(parts)| == |parts| * w
  {
    if parts != [] {
      FlattenUniformLength(parts[1..], w);
    }
  }

  /** An array of shape `s` with every element equal to `v` (`np.full`). */
  function Full(s: seq<nat>, v: Value): (r: Tensor)
    ensures HasShape(r, s)
    ensures forall x :: x in Ravel(r) ==> x == v
    decreases |s|
  {
    if s == [] then Scalar(v)
    else
      var r := Dim(seq(s[0], _ => Full(s[1..], v)));
      FlattenAllEqual(seq(s[0], i requires 0 <= i < s[0] => Ravel(r.items[i])), v);
      r
  }

  lemma {:induction false} FlattenAllEqual<T>(parts: seq<seq<T>>, v: T)
    requires forall i, x :: 0 <= i < |parts| && x in parts[i] ==> x == v
    ensures forall x :: x in Flatten(parts) ==> x == v
  {
    if parts != [] {
      FlattenAllEqual(parts[1..], v);
    }
  }

  // ---------------------------------------------------------------------------
  // Element-wise operations

  /** `f` applied to every element. */
  function MapValues(f: Value -> Value, t: Tensor): Tensor
    decreases t
  {
    match t
    case Scalar(v) => Scalar(f(v))
    case Dim(items) => Dim(seq(|items|, i requires 0 <= i < |items| => MapValues(f, items[i])))
  }

  /** Element-wise maps keep the shape and act on each element of the ravelled array. */
  lemma {:induction false} MapValuesShape(f: Value -> Value, t: Tensor, s: seq<nat>)
    requires HasShape(t, s)
    ensures HasShape(MapValues(f, t), s)
    ensures Ravel(MapValues(f, t)) == Map(f, Ravel(t))
    decreases t
  {
    match t
    case Scalar(v) =>
    case Dim(items) =>
      var mapped := seq(|items|, i requires 0 <= i < |items| => MapValues(f, items[i]));
      forall i | 0 <= i < |items| ensures HasShape(mapped[i], s[1..]) && Ravel(mapped[i]) == Map(f, Ravel(items[i])) {
        MapValuesShape(f, items[i], s[1..]);
      }
      MapFlatten(f, seq(|items|, i requires 0 <= i < |items| => Ravel(items[i])),
                 seq(|items|, i requires 0 <= i < |items| => Ravel(mapped[i])));
  }

  lemma {:induction false} MapFlatten<T, U>(f: T -> U, parts: seq<seq<T>>, mapped: seq<seq<U>>)
    requires |mapped| == |parts| && forall i :: 0 <= i < |parts| ==> mapped[i] == Map(f, parts[i])
    ensures Flatten(mapped) == Map(f, Flatten(parts))
  {
    if parts != [] {
      MapFlatten(f, parts[1..], mapped[1..]);
    }
  }

  /** `f(a, b)` element by element, for two arrays of the same shape `s`. */
  function Zip(f: (Value, Value) -> Value, a: Tensor, b: Tensor, s: seq<nat>): (r: Tensor)
    requires HasShape(a, s) && HasShape(b, s)
    ensures HasShape(r, s)
    decreases a
  {
    match a
    case Scalar(x) => Scalar(f(x, b.v))
    case Dim(items) => Dim(seq(|items|, i requires 0 <= i < |items| => Zip(f, items[i], b.items[i], s[1..])))
  }

  /** The element-wise combination of two sequences of equal length. */
  function ZipValues(f: (Value, Value) -> Value, xs: seq<Value>, ys: seq<Value>): (r: seq<Value>)
    requires |xs| == |ys|
    ensures |r| == |xs| && forall i :: 0 <= i < |xs| ==> r[i] == f(xs[i], ys[i])
  {
    seq(|xs|, i requires 0 <= i < |xs| => f(xs[i], ys[i]))
  }

  /** In row-major order, `Zip` combines the i-th element of `a` with the i-th element of `b`:
      this is what a ufunc writing into a flat buffer computes. */
  lemma {:induction false} RavelZip(f: (Value, Value) -> Value, a: Tensor, b: Tensor, s: seq<nat>)
    requires HasShape(a, s) && HasShape(b, s)
    ensures |Ravel(a)| == |Ravel(b)|
    ensures Ravel(Zip(f, a, b, s)) == ZipValues(f, Ravel(a), Ravel(b))
    decreases a
  {
    RavelLength(a, s);
    RavelLength(b, s);
    match a
    case Scalar(x) =>
    case Dim(items) =>
      var zs := Zip(f, a, b, s).items;
      var pa := seq(|items|, i requires 0 <= i < |items| => Ravel(items[i]));
      var pb := seq(|items|, i requires 0 <= i < |items| => Ravel(b.items[i]));
      var pz := seq(|items|, i requires 0 <= i < |items| => Ravel(zs[i]));
      forall i | 0 <= i < |items|
        ensures |pa[i]| == |pb[i]| && pz[i] == ZipValues(f, pa[i], pb[i])
      {
        RavelZip(f, items[i], b.items[i], s[1..]);
      }
      ZipFlatten(f, pa, pb, pz);
  }

  lemma {:induction false} ZipFlatten(f: (Value, Value) -> Value, pa: seq<seq<Value>>, pb: seq<seq<Value>>, pz: seq<seq<Value>>)
    requires |pa| == |pb| == |pz|
    requires forall i :: 0 <= i < |pa| ==> |pa[i]| == |pb[i]| && pz[i] == ZipValues(f, pa[i], pb[i])
    ensures |Flatten(pa)| == |Flatten(pb)|
    ensures Flatten(pz) == ZipValues(f, Flatten(pa), Flatten(pb))
  {
    if pa != [] {
      ZipFlatten(f, pa[1..], pb[1..], pz[1..]);
    }
  }

  /** The element-wise left fold of `f` over a non-empty list of arrays of shape `s`:
      `f(...f(f(ts[0], ts[1]), ts[2])..., ts[k-1])`. */
  function FoldZip(f: (Value, Value) -> Value, ts: seq<Tensor>, s: seq<nat>): (r: Tensor)
    requires |ts| > 0 && forall i :: 0 <= i < |ts| ==> HasShape(ts[i], s)
    ensures HasShape(r, s)
    decreases |ts|
  {
    if |ts| == 1 then ts[0]
    else Zip(f, FoldZip(f, ts[..|ts| - 1], s), ts[|ts| - 1], s)
  }

  /** Element-wise combination inherits associativity from the element operation. */
  lemma {:induction false} ZipAssociative(f: (Value, Value) -> Value, a: Tensor, b: Tensor, c: Tensor, s: seq<nat>)
    requires Associative(f)
    requires HasShape(a, s) && HasShape(b, s) && HasShape(c, s)
    ensures Zip(f, Zip(f, a, b, s), c, s) == Zip(f, a, Zip(f, b, c, s), s)
    decreases a
  {
    match a
    case Scalar(_) =>
    case Dim(items) =>
      var lhs := Zip(f, Zip(f, a, b, s), c, s);
      var rhs := Zip(f, a, Zip(f, b, c, s), s);
      assert |lhs.items| == |rhs.items|;
      forall i | 0 <= i < |items| ensures lhs.items[i] == rhs.items[i] {
        ZipAssociative(f, items[i], b.items[i], c.items[i], s[1..]);
      }
  }

  /** For an associative operation, folding a concatenation combines the folds of the two parts. */
  lemma {:induction false} FoldZipConcat(f: (Value, Value) -> Value, a: seq<Tensor>, b: seq<Tensor>, s: seq<nat>)
    requires Associative(f)
    requires |a| > 0 && forall i :: 0 <= i < |a| ==> HasShape(a[i], s)
    requires |b| > 0 && forall i :: 0 <= i < |b| ==> HasShape(b[i], s)
    ensures forall i :: 0 <= i < |a + b| ==> HasShape((a + b)[i], s)
    ensures FoldZip(f, a + b, s) == Zip(f, FoldZip(f, a, s), FoldZip(f, b, s), s)
    decreases |b|
  {
    var ab := a + b;
    assert forall i :: 0 <= i < |ab| ==> HasShape(ab[i], s);
    if |b| == 1 {
      assert ab[..|ab| - 1] == a;
    } else {
      var b' := b[..|b| - 1];
      assert ab[..|ab| - 1] == a + b';
      FoldZipConcat(f, a, b', s);
      ZipAssociative(f, FoldZip(f, a, s), FoldZip(f, b', s), b[|b| - 1], s);
    }
  }

  /** For an associative operation, folding a concatenation of non-empty groups is folding
      the folds of the groups, in order. */
  lemma {:induction false} FoldZipGroups(f: (Value, Value) -> Value, groups: seq<seq<Tensor>>, s: seq<nat>)
    requires Associative(f) && |groups| > 0
    requires forall g :: 0 <= g < |groups| ==> |groups[g]| > 0 && forall i :: 0 <= i < |groups[g]| ==> HasShape(groups[g][i], s)
    ensures |Flatten(groups)| > 0 && forall i :: 0 <= i < |Flatten(groups)| ==> HasShape(Flatten(groups)[i], s)
    ensures FoldZip(f, Flatten(groups), s)
            == FoldZip(f, seq(|groups|, g requires 0 <= g < |groups| => FoldZip(f, groups[g], s)), s)
    decreases |groups|
  {
    var n := |groups|;
    var init := groups[..n - 1];
    var folds := seq(|groups|, g requires 0 <= g < |groups| => FoldZip(f, groups[g], s));
    assert groups == init + [groups[n - 1]];
    FlattenAppend(init, groups[n - 1]);
    if n == 1 {
      assert Flatten(init) == [];
      assert Flatten(groups) == groups[0];
    } else {
      FoldZipGroups(f, init, s);
      FoldZipConcat(f, Flatten(init), groups[n - 1], s);
      assert folds[..n - 1] == seq(|init|, g requires 0 <= g < |init| => FoldZip(f, init[g], s));
    }
  }

  /** The fold of a list of arrays, read one sub-array at a time along the first axis. */
  lemma {:induction false} FoldZipItems(f: (Value, Value) -> Value, ts: seq<Tensor>, s: seq<nat>)
    requires |ts| > 0 && forall k :: 0 <= k < |ts| ==> HasShape(ts[k], s)
    requires |s| > 0
    ensures FoldZip(f, ts, s) == Dim(seq(s[0], i requires 0 <= i < s[0] => FoldZip(f, Column(ts, s, i), s[1..])))
    decreases |ts|
  {
    if |ts| == 1 {
      var r := FoldZip(f, ts, s);
      DimOf(r, s);
      forall i | 0 <= i < s[0] ensures r.items[i] == FoldZip(f, Column(ts, s, i), s[1..]) {
      }
    } else {
      FoldZipItems(f, ts[..|ts| - 1], s);
      FoldZipItemsStep(f, ts, s);
    }
  }

  /** One step of `FoldZipItems`: folding one more array keeps the fold read by sub-arrays. */
  lemma FoldZipItemsStep(f: (Value, Value) -> Value, ts: seq<Tensor>, s: seq<nat>)
    requires |ts| > 1 && forall k :: 0 <= k < |ts| ==> HasShape(ts[k], s)
    requires |s| > 0
    requires FoldZip(f, ts[..|ts| - 1], s) ==
             Dim(seq(s[0], i requires 0 <= i < s[0] => FoldZip(f, Column(ts[..|ts| - 1], s, i), s[1..])))
    ensures FoldZip(f, ts, s) == Dim(seq(s[0], i requires 0 <= i < s[0] => FoldZip(f, Column(ts, s, i), s[1..])))
  {
    var r := FoldZip(f, ts, s);
    var init := ts[..|ts| - 1];
    DimOf(r, s);
    forall i | 0 <= i < s[0] ensures r.items[i] == FoldZip(f, Column(ts, s, i), s[1..]) {
      var col := Column(ts, s, i);
      assert col[..|col| - 1] == Column(init, s, i);
    }
  }

  /** Stacking along a new last axis and reducing along that axis is the element-wise fold:
      the reference meaning of a reduction "along a new axis". */
  lemma {:induction false} ReduceStackLast(f: (Value, Value) -> Value, identity: Option<Value>, ts: seq<Tensor>, s: seq<nat>)
    requires |ts| > 0 && forall k :: 0 <= k < |ts| ==> HasShape(ts[k], s)
    ensures (s + [|ts|])[|s|] > 0 && RemoveAxis(s + [|ts|], |s|) == s
    ensures ReduceAxis(f, identity, StackLast(ts, s), s + [|ts|], |s|) == FoldZip(f, ts, s)
    decreases |s|
  {
    var k := |ts|;
    assert RemoveAxis(s + [k], |s|) == s;
    if s != [] {
      var st := StackLast(ts, s);
      assert (s + [k])[1..] == s[1..] + [k];
      FoldZipItems(f, ts, s);
      var lhs := ReduceAxis(f, identity, st, s + [k], |s|);
      forall i | 0 <= i < s[0] ensures lhs.items[i] == FoldZip(f, Column(ts, s, i), s[1..]) {
        ReduceStackLast(f, identity, Column(ts, s, i), s[1..]);
      }
    }
  }

  /** Element `i` (in row-major order) of each array of `ts`. */
  function ElementLane(ts: seq<Tensor>, s: seq<nat>, i: nat): (lane: seq<Value>)
    requires forall k :: 0 <= k < |ts| ==> HasShape(ts[k], s)
    requires i < Size(s)
    ensures |lane| == |ts|
    ensures forall k :: 0 <= k < |ts| ==> |Ravel(ts[k])| == Size(s) && lane[k] == Ravel(ts[k])[i]
  {
    assert forall k :: 0 <= k < |ts| ==> |Ravel(ts[k])| == Size(s) by {
      forall k | 0 <= k < |ts| ensures |Ravel(ts[k])| == Size(s) {
        RavelLength(ts[k], s);
      }
    }
    seq(|ts|, k requires 0 <= k < |ts| => Ravel(ts[k])[i])
  }

  /** Element `i` of the element-wise fold is the fold of element `i` of every array. */
  lemma {:induction false} RavelFoldZip(f: (Value, Value) -> Value, ts: seq<Tensor>, s: seq<nat>, i: nat)
    requires |ts| > 0 && forall k :: 0 <= k < |ts| ==> HasShape(ts[k], s)
    requires i < Size(s)
    ensures |Ravel(FoldZip(f, ts, s))| == Size(s)
    ensures Ravel(FoldZip(f, ts, s))[i] == Reduce(f, ElementLane(ts, s, i))
    decreases |ts|
  {
    RavelLength(FoldZip(f, ts, s), s);
    var lane := ElementLane(ts, s, i);
    if |ts| > 1 {
      var init := ts[..|ts| - 1];
      var last := ts[|ts| - 1];
      RavelFoldZip(f, init, s, i);
      RavelZip(f, FoldZip(f, init, s), last, s);
      assert lane[..|lane| - 1] == ElementLane(init, s, i);
    }
  }

  // ---------------------------------------------------------------------------
  // Reductions

  /** `ufunc.reduce(t, axis=ax)` for a ufunc computing `f` with the given identity; the
      reduced axis must be non-empty or the ufunc must have an identity. */
  function ReduceAxis(f: (Value, Value) -> Value, identity: Option<Value>, t: Tensor, s: seq<nat>, ax: nat): (r: Tensor)
    requires HasShape(t, s) && ax < |s|
    requires s[ax] > 0 || identity.Some?
    ensures HasShape(r, RemoveAxis(s, ax))
    decreases ax
  {
    if ax == 0 then
      assert RemoveAxis(s, 0) == s[1..];
      if s[0] == 0 then Full(s[1..], identity.value) else FoldZip(f, t.items, s[1..])
    else
      var items := seq(s[0], i requires 0 <= i < s[0] => ReduceAxis(f, identity, t.items[i], s[1..], ax - 1));
      assert RemoveAxis(s, ax) == [s[0]] + RemoveAxis(s[1..], ax - 1);
      Dim(items)
  }

  /** `ufunc.reduce(t, axis=None)`: the left fold over all elements in row-major order,
      the identity for an empty array, and ValueError when there is none. */
  function ReduceAll(f: (Value, Value) -> Value, identity: Option<Value>, t: Tensor): (r: Result<Value>)
    ensures r.Err? <==> Ravel(t) == [] && identity.None?
    ensures r.Err? ==> r.error == Exception(ValueError, ZeroSizeReductionWithoutIdentity)
    ensures r.Ok? && Ravel(t) == [] ==> r.value == identity.value
  {
    var xs := Ravel(t);
    if xs != [] then Ok(Reduce(f, xs))
    else if identity.Some? then Ok(identity.value)
    else Err(Exception(ValueError, ZeroSizeReductionWithoutIdentity))
  }

  // ---------------------------------------------------------------------------
  // Stacking and concatenation

  /** `np.stack(ts, axis=-1)` for a non-empty list of arrays of shape `s`: a new trailing axis. */
  function StackLast(ts: seq<Tensor>, s: seq<nat>): (r: Tensor)
    requires |ts| > 0 && forall k :: 0 <= k < |ts| ==> HasShape(ts[k], s)
    ensures HasShape(r, s + [|ts|])
    decreases |s|
  {
    if s == [] then
      assert forall i :: 0 <= i < |ts| ==> HasShape(ts[i], []);
      Dim(ts)
    else
      var items := seq(s[0], i requires 0 <= i < s[0] => StackLast(Column(ts, s, i), s[1..]));
      assert (s + [|ts|])[1..] == s[1..] + [|ts|];
      assert forall i :: 0 <= i < s[0] ==> HasShape(items[i], s[1..] + [|ts|]);
      Dim(items)
  }

  /** Sub-array `i` (along the first axis) of each array in `ts`. */
  function Column(ts: seq<Tensor>, s: seq<nat>, i: nat): (col: seq<Tensor>)
    requires forall k :: 0 <= k < |ts| ==> HasShape(ts[k], s)
    requires |s| > 0 && i < s[0]
    ensures |col| == |ts|
    ensures forall k :: 0 <= k < |ts| ==> ts[k].Dim? && |ts[k].items| == s[0] && col[k] == ts[k].items[i]
    ensures forall k :: 0 <= k < |ts| ==> HasShape(col[k], s[1..])
  {
    assert forall k :: 0 <= k < |ts| ==> ts[k].Dim? && |ts[k].items| == s[0] && HasShape(ts[k].items[i], s[1..]) by {
      forall k | 0 <= k < |ts| ensures ts[k].Dim? && |ts[k].items| == s[0] && HasShape(ts[k].items[i], s[1..]) {
        DimOf(ts[k], s);
      }
    }
    seq(|ts|, k requires 0 <= k < |ts| => ts[k].items[i])
  }

  /** A well-shaped array of non-zero rank is a list of `s[0]` sub-arrays of shape `s[1..]`. */
  lemma DimOf(t: Tensor, s: seq<nat>)
    requires HasShape(t, s) && |s| > 0
    ensures t.Dim? && |t.items| == s[0] && forall i :: 0 <= i < s[0] ==> HasShape(t.items[i], s[1..])
  {
  }

  /** The sub-array at index `j` along the last axis: `t[..., j]`. */
  function SliceLast(t: Tensor, s: seq<nat>, k: nat, j: nat): (r: Tensor)
    requires HasShape(t, s + [k]) && j < k
    ensures HasShape(r, s)
    decreases |s|
  {
    if s == [] then t.items[j]
    else
      assert (s + [k])[1..] == s[1..] + [k];
      Dim(seq(s[0], i requires 0 <= i < s[0] => SliceLast(t.items[i], s[1..], k, j)))
  }

  /** Slicing a stack recovers every stacked array: slice `j` of `np.stack(ts, -1)` is `ts[j]`. */
  lemma {:induction false} SliceOfStack(ts: seq<Tensor>, s: seq<nat>, j: nat)
    requires |ts| > 0 && forall k :: 0 <= k < |ts| ==> HasShape(ts[k], s)
    requires j < |ts|
    ensures SliceLast(StackLast(ts, s), s, |ts|, j) == ts[j]
    decreases |s|
  {
    if s != [] {
      var st := StackLast(ts, s);
      var t := ts[j];
      assert |t.items| == s[0];
      forall i | 0 <= i < s[0] ensures SliceLast(st.items[i], s[1..], |ts|, j) == t.items[i] {
        var col := Column(ts, s, i);
        assert st.items[i] == StackLast(col, s[1..]);
        SliceOfStack(col, s[1..], j);
      }
    }
  }

  /** Two shapes of the same rank that agree on every axis except `ax`. */
  predicate AgreeExcept(sa: seq<nat>, sb: seq<nat>, ax: nat) {
    |sa| == |sb| && ax < |sa| && forall d :: 0 <= d < |sa| && d != ax ==> sa[d] == sb[d]
  }

  /** `np.concatenate([a, b], axis=ax)`: the result's size along `ax` is the sum of the two. */
  function Concatenate(a: Tensor, b: Tensor, sa: seq<nat>, sb: seq<nat>, ax: nat): (r: Tensor)
    requires HasShape(a, sa) && HasShape(b, sb) && AgreeExcept(sa, sb, ax)
    ensures HasShape(r, sa[ax := sa[ax] + sb[ax]])
    decreases ax
  {
    if ax == 0 then
      assert sa[0 := sa[0] + sb[0]][1..] == sa[1..] == sb[1..];
      Dim(a.items + b.items)
    else
      assert sa[ax := sa[ax] + sb[ax]] == [sa[0]] + sa[1..][ax - 1 := sa[ax] + sb[ax]];
      assert AgreeExcept(sa[1..], sb[1..], ax - 1) by {
        forall d | 0 <= d < |sa| - 1 && d != ax - 1 ensures sa[1..][d] == sb[1..][d] {
          assert sa[d + 1] == sb[d + 1];
        }
      }
      Dim(seq(sa[0], i requires 0 <= i < sa[0] => Concatenate(a.items[i], b.items[i], sa[1..], sb[1..], ax - 1)))
  }

  /** Appending one more slice along the last axis of a stack, as the existing-axis reduction
      does with `np.concatenate([acc, np.expand_dims(x, -1)], axis=-1)`, gives the stack of the
      longer list. */
  lemma {:induction false} ConcatenateOntoStack(ts: seq<Tensor>, x: Tensor, s: seq<nat>)
    requires |ts| > 0 && forall k :: 0 <= k < |ts| ==> HasShape(ts[k], s)
    requires HasShape(x, s)
    ensures AgreeExcept(s + [|ts|], s + [1], |s|)
    ensures Concatenate(StackLast(ts, s), StackLast([x], s), s + [|ts|], s + [1], |s|)
            == StackLast(ts + [x], s)
    decreases |s|
  {
    var ts' := ts + [x];
    assert forall k :: 0 <= k < |ts'| ==> HasShape(ts'[k], s);
    if s == [] {
    } else {
      var lhs := Concatenate(StackLast(ts, s), StackLast([x], s), s + [|ts|], s + [1], |s|);
      var rhs := StackLast(ts', s);
      assert |lhs.items| == s[0] == |rhs.items|;
      forall i | 0 <= i < s[0] ensures lhs.items[i] == rhs.items[i] {
        var col := Column(ts, s, i);
        var col' := Column(ts', s, i);
        assert col' == col + [x.items[i]];
        assert StackLast([x], s).items[i] == StackLast([x.items[i]], s[1..]) by {
          assert Column([x], s, i) == [x.items[i]];
        }
        assert (s + [|ts|])[1..] == s[1..] + [|ts|];
        assert (s + [1])[1..] == s[1..] + [1];
        ConcatenateOntoStack(col, x.items[i], s[1..]);
      }
    }
  }

  /** All arrays of `xs` have the shape `s`. */
  predicate AllShaped(xs: seq<Array>, s: seq<nat>) {
    forall k :: 0 <= k < |xs| ==> xs[k].shape == s
  }

  /** The contents of each array of `xs`. */
  function Datas(xs: seq<Array>, s: seq<nat>): (ts: seq<Tensor>)
    requires AllShaped(xs, s)
    ensures |ts| == |xs| && forall k :: 0 <= k < |xs| ==> ts[k] == xs[k].data && HasShape(ts[k], s)
  {
    seq(|xs|, k requires 0 <= k < |xs| => xs[k].data)
  }

  /** The contents of the chunks of a list, chunk after chunk, are the contents of the list. */
  lemma {:induction false} DatasFlatten(chunks: seq<seq<Array>>, s: seq<nat>)
    requires forall g :: 0 <= g < |chunks| ==> AllShaped(chunks[g], s)
    ensures AllShaped(Flatten(chunks), s)
    ensures Datas(Flatten(chunks), s) == Flatten(seq(|chunks|, g requires 0 <= g < |chunks| => Datas(chunks[g], s)))
  {
    if chunks != [] {
      var rest := chunks[1..];
      DatasFlatten(rest, s);
      var parts := seq(|chunks|, g requires 0 <= g < |chunks| => Datas(chunks[g], s));
      assert parts[1..] == seq(|rest|, g requires 0 <= g < |rest| => Datas(rest[g], s));
      assert Flatten(chunks) == chunks[0] + Flatten(rest);
      assert AllShaped(Flatten(chunks), s);
      assert Datas(Flatten(chunks), s) == Datas(chunks[0], s) + Datas(Flatten(rest), s);
    }
  }

  /** `np.stack(xs, axis=-1)`: ValueError for an empty list or for arrays of different shapes;
      otherwise an array of shape `(*s, n)` (its slices are `StackSlices`). */
  function Stack(xs: seq<Array>): (r: Result<Array>)
    ensures r.Err? <==> xs == [] || !AllShaped(xs, xs[0].shape)
    ensures r.Err? ==> r.error.kind == ValueError
    ensures r.Ok? ==> r.value.shape == xs[0].shape + [|xs|] && r.value.dtype == xs[0].dtype
  {
    if xs == [] then Err(Exception(ValueError, NothingToStack))
    else if !AllShaped(xs, xs[0].shape) then Err(Exception(ValueError, ShapeMismatch))
    else
      var s := xs[0].shape;
      Ok(NdArray(s + [|xs|], xs[0].dtype, StackLast(Datas(xs, s), s)))
  }

  /** Slice `j` along the last axis of `np.stack(xs, axis=-1)` is `xs[j]`. */
  lemma StackSlices(xs: seq<Array>)
    requires Stack(xs).Ok?
    ensures forall j :: 0 <= j < |xs| ==> SliceLast(Stack(xs).value.data, xs[0].shape, |xs|, j) == xs[j].data
  {
    var s := xs[0].shape;
    forall j | 0 <= j < |xs| ensures SliceLast(Stack(xs).value.data, s, |xs|, j) == xs[j].data {
      SliceOfStack(Datas(xs, s), s, j);
    }
  }

  // ---------------------------------------------------------------------------
  // Arrays

  /** `np.atleast_1d`: a 0-d array becomes a one-element vector; others are returned as they are. */
  function AtLeast1d(a: Array): (r: Array)
    ensures |r.shape| >= 1 && r.dtype == a.dtype && Ravel(r.data) == Ravel(a.data)
    ensures |a.shape| >= 1 ==> r == a
    ensures |a.shape| == 0 ==> r.shape == [1]
  {
    if |a.shape| == 0 then
      assert [1][1..] == [];
      assert seq(1, i requires 0 <= i < 1 => Ravel([a.data][i])) == [Ravel(a.data)];
      assert Flatten([Ravel(a.data)]) == Ravel(a.data);
      NdArray([1], a.dtype, Dim([a.data]))
    else a
  }

  /** The array contains no NaN. */
  predicate NoNaN(t: Tensor) { NaN !in Ravel(t) }

  /** An array holds no NaN exactly when none of its sub-arrays does. */
  lemma NoNaNDim(items: seq<Tensor>)
    ensures NoNaN(Dim(items)) <==> forall i :: 0 <= i < |items| ==> NoNaN(items[i])
  {
    var parts := seq(|items|, i requires 0 <= i < |items| => Ravel(items[i]));
    FlattenMember(parts, NaN);
    if NoNaN(Dim(items)) {
      forall i | 0 <= i < |items| ensures NoNaN(items[i]) {
        assert NaN !in parts[i];
      }
    }
  }

  /** An operation that never makes NaN out of numbers. */
  ghost predicate KeepsNumbers(f: (Value, Value) -> Value) {
    forall a: Value, b: Value :: a.Num? && b.Num? ==> f(a, b).Num?
  }

  /** Folding such an operation over numbers gives a number. */
  lemma {:induction false} ReduceKeepsNumbers(f: (Value, Value) -> Value, vs: seq<Value>)
    requires KeepsNumbers(f) && |vs| > 0 && NaN !in vs
    ensures Reduce(f, vs).Num?
    decreases |vs|
  {
    if |vs| > 1 {
      var init := vs[..|vs| - 1];
      assert NaN !in init by {
        forall j | 0 <= j < |init| ensures init[j] != NaN {
          assert init[j] == vs[j];
        }
      }
      ReduceKeepsNumbers(f, init);
      assert vs[|vs| - 1] in vs;
    }
  }

  /** The element-wise fold of NaN-free arrays with such an operation holds no NaN. */
  lemma FoldNoNaN(f: (Value, Value) -> Value, ts: seq<Tensor>, s: seq<nat>)
    requires KeepsNumbers(f)
    requires |ts| > 0 && forall k :: 0 <= k < |ts| ==> HasShape(ts[k], s) && NoNaN(ts[k])
    ensures NoNaN(FoldZip(f, ts, s))
  {
    var out := Ravel(FoldZip(f, ts, s));
    RavelLength(FoldZip(f, ts, s), s);
    forall i | 0 <= i < |out| ensures out[i] != NaN {
      RavelFoldZip(f, ts, s, i);
      var lane := ElementLane(ts, s, i);
      forall j | 0 <= j < |lane| ensures lane[j] != NaN {
        assert Ravel(ts[j])[i] in Ravel(ts[j]);
      }
      ReduceKeepsNumbers(f, lane);
    }
  }

  /** Stacking NaN-free arrays gives a NaN-free array. */
  lemma {:induction false} StackLastNoNaN(ts: seq<Tensor>, s: seq<nat>)
    requires |ts| > 0 && forall k :: 0 <= k < |ts| ==> HasShape(ts[k], s) && NoNaN(ts[k])
    ensures NoNaN(StackLast(ts, s))
    decreases |s|
  {
    if s == [] {
      NoNaNDim(ts);
    } else {
      var r := StackLast(ts, s);
      forall i | 0 <= i < s[0] ensures NoNaN(r.items[i]) {
        var col := Column(ts, s, i);
        forall k | 0 <= k < |ts| ensures NoNaN(col[k]) {
          NoNaNDim(ts[k].items);
        }
        StackLastNoNaN(col, s[1..]);
      }
      NoNaNDim(r.items);
    }
  }

  /** Reducing a NaN-free array along an axis with an operation that keeps numbers, and an
      identity (if any) that is a number, gives a NaN-free array. */
  lemma {:induction false} ReduceAxisNoNaN(f: (Value, Value) -> Value, identity: Option<Value>, t: Tensor, s: seq<nat>, ax: nat)
    requires HasShape(t, s) && ax < |s|
    requires s[ax] > 0 || identity.Some?
    requires KeepsNumbers(f) && (identity.Some? ==> identity.value.Num?) && NoNaN(t)
    ensures NoNaN(ReduceAxis(f, identity, t, s, ax))
    decreases ax
  {
    var r := ReduceAxis(f, identity, t, s, ax);
    DimOf(t, s);
    NoNaNDim(t.items);
    if ax == 0 {
      if s[0] != 0 {
        FoldNoNaN(f, t.items, s[1..]);
      }
    } else {
      forall i | 0 <= i < s[0] ensures NoNaN(r.items[i]) {
        ReduceAxisNoNaN(f, identity, t.items[i], s[1..], ax - 1);
      }
      NoNaNDim(r.items);
    }
  }


  // ---------------------------------------------------------------------------
  // Flat buffers

  /** `dst[:] = src` on a buffer of the same size. */
  method CopyInto(dst: array<Value>, src: seq<Value>)
    requires dst.Length == |src|
    modifies dst
    ensures dst[..] == src
  {
    for i := 0 to dst.Length
      invariant dst[..i] == src[..i]
    {
      dst[i] := src[i];
    }
    assert dst[..] == dst[..dst.Length];
  }

  /** `ufunc(acc, b, out=acc)` on the flat storage: every element of `acc` is combined in place
      with the element of `b` at the same position. */
  method ZipInPlace(acc: array<Value>, b: seq<Value>, f: (Value, Value) -> Value)
    requires acc.Length == |b|
    modifies acc
    ensures acc[..] == ZipValues(f, old(acc[..]), b)
  {
    for i := 0 to acc.Length
      invariant acc[..i] == ZipValues(f, old(acc[..]), b)[..i]
      invariant acc[i..] == old(acc[..])[i..]
    {
      assert acc[i] == old(acc[..])[i];
      acc[i] := f(acc[i], b[i]);
      assert acc[..i + 1] == acc[..i] + [acc[i]];
    }
    assert acc[..] == acc[..acc.Length];
  }
}
