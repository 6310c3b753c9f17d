/** Stacking a whole stream (npstreams/stacking.py). With `axis == -1` the arrays are stacked
    along a new trailing axis in one call; with any other axis the first array is copied and
    every later one is concatenated onto the running result along that axis. */
module Stacking {
  import opened Wrappers
  import opened Seqs
  import opened NdArrays
  import opened ArrayStreams

  /** NumPy's axis normalisation for an array of rank `rank`: valid axes are
      `-rank <= axis < rank`, and a negative one counts from the end. */
  function NormalizeAxis(axis: int, rank: nat): (r: Option<nat>)
    ensures r.Some? <==> -(rank as int) <= axis < rank
    ensures r.Some? ==> r.value < rank && (r.value == axis || r.value == axis + rank)
  {
    if -(rank as int) <= axis < 0 then Some((axis + rank) as nat)
    else if 0 <= axis < rank then Some(axis as nat)
    else None
  }

  /** `np.concatenate([acc, b], axis=axis)`: a 0-d accumulator, an axis out of range, arrays of
      different rank, or sizes that differ off the axis raise ValueError; otherwise the sizes
      along the axis add up. The stream has given every array the same dtype. */
  function ConcatPair(acc: Array, b: Array, axis: int): (r: Result<Array>)
    ensures r.Err? ==> r.error.kind == ValueError
    ensures r.Ok? <==> && |acc.shape| > 0 && NormalizeAxis(axis, |acc.shape|).Some?
                       && AgreeExcept(acc.shape, b.shape, NormalizeAxis(axis, |acc.shape|).value)
    ensures r.Ok? ==> var ax := NormalizeAxis(axis, |acc.shape|).value;
                      && r.value.shape == acc.shape[ax := acc.shape[ax] + b.shape[ax]]
                      && r.value.dtype == acc.dtype
  {
    if |acc.shape| == 0 then Err(Exception(ValueError, ZeroDimensional))
    else
      var ax := NormalizeAxis(axis, |acc.shape|);
      if ax.None? then Err(Exception(ValueError, AxisOutOfBounds))
      else if |b.shape| != |acc.shape| then Err(Exception(ValueError, RankMismatch))
      else if !AgreeExcept(acc.shape, b.shape, ax.value) then Err(Exception(ValueError, ShapeMismatch))
      else
        var s := acc.shape[ax.value := acc.shape[ax.value] + b.shape[ax.value]];
        Ok(NdArray(s, acc.dtype, Concatenate(acc.data, b.data, acc.shape, b.shape, ax.value)))
  }

  /** The loop of `stack` for an axis other than -1: the first array, then each later one
      concatenated onto the running result; the first failure ends it. */
  function ConcatAll(xs: seq<Array>, axis: int): Result<Array>
    requires xs != []
    decreases |xs|
  {
    if |xs| == 1 then Ok(xs[0])
    else
      var acc :- ConcatAll(xs[..|xs| - 1], axis);
      ConcatPair(acc, xs[|xs| - 1], axis)
  }

  /** `stack(arrays, axis)`: the stream wrapper's errors, then `np.stack(..., axis=-1)` of the
      whole stream for `axis == -1`, else the concatenation loop. */
  function StackStream(src: Source, axis: int): Result<Array> {
    var xs :- StreamItems(src);
    if axis == -1 then Stack(xs) else ConcatAll(xs, axis)
  }

  /** The rebinding loop of `stack`. `np.array(first, copy=True)` gives a value no caller
      holds, so the result never shares storage with an input. */
  method StackLoop(xs: seq<Array>, axis: int) returns (r: Result<Array>)
    requires xs != []
    ensures r == ConcatAll(xs, axis)
  {
    var stack := xs[0];
    assert xs[..1] == [xs[0]];
    var i := 1;
    while i < |xs|
      invariant 1 <= i <= |xs|
      invariant ConcatAll(xs[..i], axis) == Ok(stack)
      decreases |xs| - i
    {
      assert xs[..i + 1][..i] == xs[..i];
      var next := ConcatPair(stack, xs[i], axis);
      if next.Err? {
        ConcatAllStops(xs, i + 1, axis);
        return next;
      }
      stack := next.value;
      i := i + 1;
    }
    assert xs[..i] == xs;
    r := Ok(stack);
  }

  /** Once a prefix fails, the whole loop fails with the same exception. */
  lemma {:induction false} ConcatAllStops(xs: seq<Array>, n: nat, axis: int)
    requires 1 <= n <= |xs| && ConcatAll(xs[..n], axis).Err?
    ensures ConcatAll(xs, axis) == ConcatAll(xs[..n], axis)
    decreases |xs| - n
  {
    if n < |xs| {
      assert xs[..n + 1][..n] == xs[..n];
      ConcatAllStops(xs, n + 1, axis);
    } else {
      assert xs[..n] == xs;
    }
  }

  // ---------------------------------------------------------------------------
  // What the loop computes

  /** Every array of `xs` has the rank of the first, which is not 0, `axis` is valid for it,
      and every size off that axis agrees with the first array's. */
  predicate Concatenable(xs: seq<Array>, axis: int)
    requires xs != []
  {
    && |xs[0].shape| > 0 && NormalizeAxis(axis, |xs[0].shape|).Some?
    && forall k :: 0 <= k < |xs| ==> AgreeExcept(xs[0].shape, xs[k].shape, NormalizeAxis(axis, |xs[0].shape|).value)
  }

  /** The sizes of the arrays of `xs` along axis `ax`, added up. */
  function SizeAlong(xs: seq<Array>, ax: nat): nat
    requires forall k :: 0 <= k < |xs| ==> ax < |xs[k].shape|
  {
    if xs == [] then 0 else SizeAlong(xs[..|xs| - 1], ax) + xs[|xs| - 1].shape[ax]
  }

  /** The loop over `xs` succeeds exactly when the stream is concatenable along `axis`, fails
      with ValueError otherwise, and on success has the first array's shape except along the
      axis, where its size is the sum of the inputs' sizes. */
  predicate ConcatRule(xs: seq<Array>, axis: int)
    requires xs != []
  {
    && (ConcatAll(xs, axis).Ok? <==> Concatenable(xs, axis))
    && (ConcatAll(xs, axis).Err? ==> ConcatAll(xs, axis).error.kind == ValueError)
    && (ConcatAll(xs, axis).Ok? ==>
          var ax := NormalizeAxis(axis, |xs[0].shape|).value;
          && (forall k :: 0 <= k < |xs| ==> ax < |xs[k].shape|)
          && ConcatAll(xs, axis).value.shape == xs[0].shape[ax := SizeAlong(xs, ax)])
  }

  /** Over two or more arrays the loop succeeds exactly when the stream is concatenable along
      `axis`, and then the result has the first array's shape except along the axis, where its
      size is the sum of the inputs' sizes. */
  lemma {:induction false} ConcatAllShape(xs: seq<Array>, axis: int)
    requires |xs| >= 2
    ensures ConcatAll(xs, axis).Ok? <==> Concatenable(xs, axis)
    ensures ConcatAll(xs, axis).Err? ==> ConcatAll(xs, axis).error.kind == ValueError
    ensures ConcatAll(xs, axis).Ok? ==>
              var ax := NormalizeAxis(axis, |xs[0].shape|).value;
              && (forall k :: 0 <= k < |xs| ==> ax < |xs[k].shape|)
              && ConcatAll(xs, axis).value.shape == xs[0].shape[ax := SizeAlong(xs, ax)]
    decreases |xs|
  {
    if |xs| == 2 {
      ConcatTwoShape(xs, axis);
    } else {
      ConcatAllShape(xs[..|xs| - 1], axis);
      ConcatStepShape(xs, axis);
    }
    assert ConcatRule(xs, axis);
  }

  /** The rule for two arrays: one call of `np.concatenate`. */
  lemma ConcatTwoShape(xs: seq<Array>, axis: int)
    requires |xs| == 2
    ensures ConcatRule(xs, axis)
  {
    var init := xs[..1];
    assert init == [xs[0]];
    assert ConcatAll(init, axis) == Ok(xs[0]);
    if Concatenable(xs, axis) {
      var ax := NormalizeAxis(axis, |xs[0].shape|).value;
      assert AgreeExcept(xs[0].shape, xs[1].shape, ax);
      assert init[..0] == [];
      assert SizeAlong(init, ax) == xs[0].shape[ax];
      assert SizeAlong(xs, ax) == xs[0].shape[ax] + xs[1].shape[ax];
    }
    if ConcatAll(xs, axis).Ok? {
      var ax := NormalizeAxis(axis, |xs[0].shape|).value;
      forall k | 0 <= k < |xs| ensures AgreeExcept(xs[0].shape, xs[k].shape, ax) {
      }
    }
  }

  /** The rule for the whole stream, given the rule for all but its last array. */
  lemma ConcatStepShape(xs: seq<Array>, axis: int)
    requires |xs| > 2 && ConcatRule(xs[..|xs| - 1], axis)
    ensures ConcatRule(xs, axis)
  {
    var n := |xs|;
    var init := xs[..n - 1];
    var last := xs[n - 1];
    var prefix := ConcatAll(init, axis);
    assert init[0] == xs[0];
    if Concatenable(xs, axis) {
      var ax := NormalizeAxis(axis, |xs[0].shape|).value;
      assert Concatenable(init, axis) by {
        forall k | 0 <= k < |init| ensures AgreeExcept(xs[0].shape, init[k].shape, ax) {
          assert init[k] == xs[k];
        }
      }
      var acc := prefix.value;
      assert AgreeExcept(xs[0].shape, last.shape, ax);
      assert AgreeExcept(acc.shape, last.shape, ax);
      assert xs[..n - 1] == init;
    }
    if ConcatAll(xs, axis).Ok? {
      assert prefix.Ok?;
      var ax := NormalizeAxis(axis, |xs[0].shape|).value;
      var acc := prefix.value;
      assert AgreeExcept(acc.shape, last.shape, ax);
      forall k | 0 <= k < |xs| ensures AgreeExcept(xs[0].shape, xs[k].shape, ax) {
        if k < n - 1 {
          assert xs[k] == init[k];
        }
      }
    }
  }

  // ---------------------------------------------------------------------------
  // Along the first axis: the elements follow each other

  /** Concatenating along axis 0 puts the elements of `b` after those of `a`. */
  lemma RavelConcatenateFirst(a: Tensor, b: Tensor, sa: seq<nat>, sb: seq<nat>)
    requires HasShape(a, sa) && HasShape(b, sb) && AgreeExcept(sa, sb, 0)
    ensures Ravel(Concatenate(a, b, sa, sb, 0)) == Ravel(a) + Ravel(b)
  {
    var pa := seq(|a.items|, i requires 0 <= i < |a.items| => Ravel(a.items[i]));
    var pb := seq(|b.items|, i requires 0 <= i < |b.items| => Ravel(b.items[i]));
    var items := a.items + b.items;
    var pab := seq(|items|, i requires 0 <= i < |items| => Ravel(items[i]));
    assert pab == pa + pb;
    assert Concatenate(a, b, sa, sb, 0) == Dim(items);
    assert Ravel(Dim(items)) == Flatten(pab);
    assert Ravel(a) == Flatten(pa) && Ravel(b) == Flatten(pb);
    FlattenConcat(pa, pb);
  }

  /** The elements of every array of `xs`, one array after the other. */
  function AllElements(xs: seq<Array>): seq<Value> {
    if xs == [] then [] else AllElements(xs[..|xs| - 1]) + Ravel(xs[|xs| - 1].data)
  }

  /** Concatenating a stream along its first axis lists the elements of its arrays in stream
      order, as `np.concatenate(stream, axis=0)` does. */
  lemma {:induction false} ConcatAllFirstAxis(xs: seq<Array>, axis: int)
    requires xs != [] && ConcatAll(xs, axis).Ok?
    requires |xs| > 1 ==> NormalizeAxis(axis, |xs[0].shape|) == Some(0)
    ensures Ravel(ConcatAll(xs, axis).value.data) == AllElements(xs)
    decreases |xs|
  {
    var n := |xs|;
    if n == 1 {
      assert xs[..0] == [];
    } else {
      var init := xs[..n - 1];
      assert init[0] == xs[0];
      if n > 2 {
        ConcatAllShape(init, axis);
      }
      ConcatAllFirstAxis(init, axis);
      var acc := ConcatAll(init, axis).value;
      RavelConcatenateFirst(acc.data, xs[n - 1].data, acc.shape, xs[n - 1].shape);
    }
  }

  // ---------------------------------------------------------------------------
  // axis == -1

  /** With `axis == -1`, a stream of arrays of one shape `s` becomes one array of shape
      `(*s, n)` whose slice `j` along the last axis is the `j`-th array of the stream. */
  lemma StackNewAxis(src: Source)
    requires StreamItems(src).Ok? && AllShaped(StreamItems(src).value, StreamItems(src).value[0].shape)
    ensures var xs := StreamItems(src).value;
            && StackStream(src, -1).Ok?
            && StackStream(src, -1).value.shape == xs[0].shape + [|xs|]
            && forall j :: 0 <= j < |xs| ==> SliceLast(StackStream(src, -1).value.data, xs[0].shape, |xs|, j) == xs[j].data
  {
    StackSlices(StreamItems(src).value);
  }

  /** A single array with `axis == -1` gains a trailing axis of length 1, `arr[..., np.newaxis]`;
      with any other axis the loop never runs and the array comes back as it is. */
  lemma StackSingle(a: Array, axis: int)
    ensures StackStream(BareArray(a), -1).Ok?
    ensures StackStream(BareArray(a), -1).value.shape == a.shape + [1]
    ensures SliceLast(StackStream(BareArray(a), -1).value.data, a.shape, 1, 0) == a.data
    ensures axis != -1 ==> StackStream(BareArray(a), axis) == Ok(a)
  {
    assert StreamItems(BareArray(a)) == Ok([a]);
    StackSlices([a]);
  }
}
