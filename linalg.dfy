/** Cumulative products (npstreams/linalg.py) over streams of integer matrices. `idot` yields
    `dot(a0, a1)` and then overwrites that one buffer with `dot(buffer, a_k)` for every later
    array; `itensordot` follows the same pattern with `tensordot(., ., axes=2)`. Both are wrapped
    by `array_stream`, whose constructor peeks the first array when the function is called. */
module Linalg {
  import opened Wrappers

  /** A two-dimensional integer array: `m[i][j]` is the entry in row `i`, column `j`. */
  datatype Matrix = Matrix(rows: nat, cols: nat, m: seq<seq<int>>)

  predicate WellFormed(a: Matrix) {
    |a.m| == a.rows && forall i :: 0 <= i < a.rows ==> |a.m[i]| == a.cols
  }

  type Mat = a: Matrix | WellFormed(a) witness Matrix(0, 0, [])

  /** Entry `(i, j)` of `a`, and 0 outside it. */
  function At(a: Mat, i: nat, j: nat): int {
    if i < a.rows && j < a.cols then a.m[i][j] else 0
  }

  /** Two matrices of one size that agree entry by entry are equal. */
  lemma MatrixEquality(a: Mat, b: Mat)
    requires a.rows == b.rows && a.cols == b.cols
    requires forall i: nat, j: nat :: i < a.rows && j < a.cols ==> At(a, i, j) == At(b, i, j)
    ensures a == b
  {
    forall i | 0 <= i < a.rows ensures a.m[i] == b.m[i] {
      forall j | 0 <= j < a.cols ensures a.m[i][j] == b.m[i][j] {
        assert At(a, i, j) == At(b, i, j);
      }
    }
  }

  // ---------------------------------------------------------------------------
  // np.dot and the in-place assignment

  /** Row `i` of `a` against column `j` of `b`, over the first `n` positions. */
  function Inner(a: Mat, b: Mat, i: nat, j: nat, n: nat): int {
    if n == 0 then 0 else Inner(a, b, i, j, n - 1) + At(a, i, n - 1) * At(b, n - 1, j)
  }

  /** The matrix product: entry `(i, j)` is row `i` of `a` against column `j` of `b`. */
  function Product(a: Mat, b: Mat): (r: Mat)
    requires a.cols == b.rows
    ensures r.rows == a.rows && r.cols == b.cols
    ensures forall i: nat, j: nat :: i < a.rows && j < b.cols ==> At(r, i, j) == Inner(a, b, i, j, a.cols)
  {
    Matrix(a.rows, b.cols,
      seq(a.rows, i requires 0 <= i < a.rows => seq(b.cols, j requires 0 <= j < b.cols => Inner(a, b, i, j, a.cols))))
  }

  /** `np.dot(a, b)` on two matrices: their product, or ValueError when the columns of `a`
      do not match the rows of `b`. */
  function Dot(a: Mat, b: Mat): (r: Result<Mat>)
    ensures r.Ok? <==> a.cols == b.rows
    ensures r.Err? ==> r.error == Exception(ValueError, ShapeMismatch)
    ensures r.Ok? ==> r.value.rows == a.rows && r.value.cols == b.cols
  {
    if a.cols == b.rows then Ok(Product(a, b)) else Err(Exception(ValueError, ShapeMismatch))
  }

  /** The terms `a[i][k] * b[k][q] * c[q][j]` for a fixed `q`, summed over `k < m`. */
  function Triple(a: Mat, b: Mat, c: Mat, i: nat, j: nat, q: nat, m: nat): int {
    if m == 0 then 0 else Triple(a, b, c, i, j, q, m - 1) + At(a, i, m - 1) * At(b, m - 1, q) * At(c, q, j)
  }

  /** Row `i` of `a` against the partial columns `Inner(b, c, k, j, n)`, over `k < m`. */
  function Mixed(a: Mat, b: Mat, c: Mat, i: nat, j: nat, n: nat, m: nat): int {
    if m == 0 then 0 else Mixed(a, b, c, i, j, n, m - 1) + At(a, i, m - 1) * Inner(b, c, m - 1, j, n)
  }

  lemma {:induction false} TripleFactor(a: Mat, b: Mat, c: Mat, i: nat, j: nat, q: nat, m: nat)
    ensures Inner(a, b, i, q, m) * At(c, q, j) == Triple(a, b, c, i, j, q, m)
    decreases m
  {
    if m > 0 {
      TripleFactor(a, b, c, i, j, q, m - 1);
      var x := Inner(a, b, i, q, m - 1);
      var y := At(a, i, m - 1) * At(b, m - 1, q);
      assert (x + y) * At(c, q, j) == x * At(c, q, j) + y * At(c, q, j);
    }
  }

  lemma {:induction false} MixedStep(a: Mat, b: Mat, c: Mat, i: nat, j: nat, n: nat, m: nat)
    ensures Mixed(a, b, c, i, j, n + 1, m) == Mixed(a, b, c, i, j, n, m) + Triple(a, b, c, i, j, n, m)
    decreases m
  {
    if m > 0 {
      MixedStep(a, b, c, i, j, n, m - 1);
      var x := At(a, i, m - 1);
      var y := Inner(b, c, m - 1, j, n);
      var z := At(b, m - 1, n) * At(c, n, j);
      assert x * (y + z) == x * y + x * z;
      assert x * z == x * At(b, m - 1, n) * At(c, n, j);
    }
  }

  lemma {:induction false} MixedEmpty(a: Mat, b: Mat, c: Mat, i: nat, j: nat, m: nat)
    ensures Mixed(a, b, c, i, j, 0, m) == 0
    decreases m
  {
    if m > 0 {
      MixedEmpty(a, b, c, i, j, m - 1);
    }
  }

  lemma {:induction false} InnerOfProduct(a: Mat, b: Mat, c: Mat, i: nat, j: nat, n: nat)
    requires a.cols == b.rows && b.cols == c.rows && i < a.rows && n <= b.cols
    ensures Inner(Product(a, b), c, i, j, n) == Mixed(a, b, c, i, j, n, a.cols)
    decreases n
  {
    if n == 0 {
      MixedEmpty(a, b, c, i, j, a.cols);
    } else {
      InnerOfProduct(a, b, c, i, j, n - 1);
      var ab := Product(a, b);
      assert At(ab, i, n - 1) == Inner(a, b, i, n - 1, a.cols);
      assert Inner(ab, c, i, j, n) == Inner(ab, c, i, j, n - 1) + At(ab, i, n - 1) * At(c, n - 1, j);
      TripleFactor(a, b, c, i, j, n - 1, a.cols);
      assert At(ab, i, n - 1) * At(c, n - 1, j) == Triple(a, b, c, i, j, n - 1, a.cols);
      MixedStep(a, b, c, i, j, n - 1, a.cols);
      assert Mixed(a, b, c, i, j, n, a.cols) == Mixed(a, b, c, i, j, n - 1, a.cols) + Triple(a, b, c, i, j, n - 1, a.cols);
    }
  }

  lemma {:induction false} MixedFull(a: Mat, b: Mat, c: Mat, i: nat, j: nat, m: nat)
    requires a.cols == b.rows && b.cols == c.rows && j < c.cols && m <= a.cols
    ensures Mixed(a, b, c, i, j, b.cols, m) == Inner(a, Product(b, c), i, j, m)
    decreases m
  {
    if m > 0 {
      MixedFull(a, b, c, i, j, m - 1);
    }
  }

  /** The matrix product is associative, so every evaluation order of a chain agrees. */
  lemma DotAssociative(a: Mat, b: Mat, c: Mat)
    requires a.cols == b.rows && b.cols == c.rows
    ensures Product(Product(a, b), c) == Product(a, Product(b, c))
  {
    var lhs := Product(Product(a, b), c);
    var rhs := Product(a, Product(b, c));
    forall i: nat, j: nat | i < a.rows && j < c.cols ensures At(lhs, i, j) == At(rhs, i, j) {
      InnerOfProduct(a, b, c, i, j, b.cols);
      MixedFull(a, b, c, i, j, a.cols);
    }
    MatrixEquality(lhs, rhs);
  }

  /** Consecutive matrices of `xs` can be multiplied. */
  predicate Chained(xs: seq<Mat>) {
    forall k :: 0 <= k < |xs| - 1 ==> xs[k].cols == xs[k + 1].rows
  }

  /** The chained product, evaluated from the left. */
  function MultiDot(xs: seq<Mat>): (r: Mat)
    requires xs != [] && Chained(xs)
    ensures r.rows == xs[0].rows && r.cols == xs[|xs| - 1].cols
    decreases |xs|
  {
    if |xs| == 1 then xs[0] else Product(MultiDot(xs[..|xs| - 1]), xs[|xs| - 1])
  }

  /** The chained product, evaluated from the right. */
  function MultiDotRight(xs: seq<Mat>): (r: Mat)
    requires xs != [] && Chained(xs)
    ensures r.rows == xs[0].rows && r.cols == xs[|xs| - 1].cols
    decreases |xs|
  {
    if |xs| == 1 then xs[0] else Product(xs[0], MultiDotRight(xs[1..]))
  }

  /** `numpy.linalg.multi_dot` picks its own evaluation order; the result does not depend on it. */
  lemma {:induction false} MultiDotOrder(xs: seq<Mat>)
    requires xs != [] && Chained(xs)
    ensures MultiDot(xs) == MultiDotRight(xs)
    decreases |xs|
  {
    if |xs| == 2 {
      assert xs[1..] == [xs[1]];
      assert xs[..1] == [xs[0]];
    } else if |xs| > 2 {
      var n := |xs|;
      var init := xs[..n - 1];
      var middle := xs[1..n - 1];
      assert init[1..] == middle;
      assert xs[1..][..|xs[1..]| - 1] == middle;
      MultiDotOrder(init);
      MultiDotOrder(xs[1..]);
      MultiDotOrder(middle);
      DotAssociative(xs[0], MultiDotRight(middle), xs[n - 1]);
    }
  }

  /** Whether `x` broadcasts to a `rows` by `cols` array: each size equal or 1. */
  predicate Broadcastable(x: Mat, rows: nat, cols: nat) {
    (x.rows == rows || x.rows == 1) && (x.cols == cols || x.cols == 1)
  }

  /** Entry `(i, j)` of `x` broadcast: an axis of size 1 is read at index 0. */
  function Broadcast(x: Mat, i: nat, j: nat): int {
    At(x, if x.rows == 1 then 0 else i, if x.cols == 1 then 0 else j)
  }

  /** `acc[:] = x`: the buffer keeps its size and takes the broadcast entries of `x`, or the
      assignment raises ValueError when `x` cannot be broadcast to it. */
  function Assign(acc: Mat, x: Mat): (r: Result<Mat>)
    ensures r.Ok? <==> Broadcastable(x, acc.rows, acc.cols)
    ensures r.Err? ==> r.error == Exception(ValueError, CannotBroadcast)
    ensures r.Ok? ==> r.value.rows == acc.rows && r.value.cols == acc.cols
  {
    if Broadcastable(x, acc.rows, acc.cols) then
      Ok(Matrix(acc.rows, acc.cols,
        seq(acc.rows, i requires 0 <= i < acc.rows => seq(acc.cols, j requires 0 <= j < acc.cols => Broadcast(x, i, j)))))
    else Err(Exception(ValueError, CannotBroadcast))
  }

  /** Assigning a matrix of the buffer's own size stores exactly that matrix. */
  lemma AssignExact(acc: Mat, x: Mat)
    requires x.rows == acc.rows && x.cols == acc.cols
    ensures Assign(acc, x) == Ok(x)
  {
    var r := Assign(acc, x).value;
    forall i: nat, j: nat | i < r.rows && j < r.cols ensures At(r, i, j) == At(x, i, j) {
      assert At(r, i, j) == Broadcast(x, i, j);
    }
    MatrixEquality(r, x);
  }

  // ---------------------------------------------------------------------------
  // idot

  /** The `idot` loop drained from accumulator `acc` over the arrays `rest`. */
  function IDotFrom(acc: Mat, rest: seq<Mat>): Run<Mat>
    decreases |rest|
  {
    if rest == [] then Run([], None)
    else
      var p := Dot(acc, rest[0]);
      if p.Err? then Run([], Some(p.error))
      else
        var next := Assign(acc, p.value);
        if next.Err? then Run([], Some(next.error))
        else Prepend(next.value, IDotFrom(next.value, rest[1..]))
  }

  /** The `idot` generator drained, over a stream whose first array exists: the second `next`
      fails inside the generator (RuntimeError) when there is no second array. */
  function IDotRun(xs: seq<Mat>): Run<Mat>
    requires xs != []
  {
    if |xs| == 1 then Run([], Some(StoppedInsideGenerator))
    else
      var p := Dot(xs[0], xs[1]);
      if p.Err? then Run([], Some(p.error))
      else Prepend(p.value, IDotFrom(p.value, xs[2..]))
  }

  /** `idot(arrays)`: the stream wrapper peeks at call time, so an empty stream raises
      StopIteration before any generator exists. */
  function IDot(xs: seq<Mat>): (r: Result<Run<Mat>>)
    ensures r.Err? <==> xs == []
    ensures r.Err? ==> r.error == Exception(StopIteration, IteratorExhausted)
    ensures r.Ok? ==> r.value == IDotRun(xs)
  {
    if xs == [] then Err(Exception(StopIteration, IteratorExhausted)) else Ok(IDotRun(xs))
  }

  /** Every matrix of `xs` is `n` by `n`. */
  predicate AllSquare(xs: seq<Mat>, n: nat) {
    forall k :: 0 <= k < |xs| ==> xs[k].rows == n && xs[k].cols == n
  }

  /** Square matrices of one size can be multiplied in any prefix. */
  lemma SquaresChained(xs: seq<Mat>, n: nat, m: nat)
    requires AllSquare(xs, n) && m <= |xs|
    ensures AllSquare(xs[..m], n) && Chained(xs[..m])
  {
  }

  /** Resumed after the first `m` arrays with their product as accumulator, over square
      matrices of one size, the loop yields the product of every longer prefix in turn and
      raises nothing. */
  lemma {:induction false} IDotFromSquares(xs: seq<Mat>, m: nat, n: nat)
    requires 1 <= m <= |xs| && AllSquare(xs, n)
    ensures Chained(xs[..m])
    ensures IDotFrom(MultiDot(xs[..m]), xs[m..]).raised.None?
    ensures |IDotFrom(MultiDot(xs[..m]), xs[m..]).outputs| == |xs| - m
    ensures forall j :: 0 <= j < |xs| - m ==>
              IDotFrom(MultiDot(xs[..m]), xs[m..]).outputs[j] == MultiDot(xs[..m + j + 1])
    decreases |xs| - m
  {
    SquaresChained(xs, n, m);
    if m < |xs| {
      SquaresChained(xs, n, m + 1);
      var acc := MultiDot(xs[..m]);
      var next := Product(acc, xs[m]);
      AssignExact(acc, next);
      assert xs[..m + 1][..m] == xs[..m];
      assert MultiDot(xs[..m + 1]) == next;
      assert xs[m..][0] == xs[m] && xs[m..][1..] == xs[m + 1..];
      IDotFromSquares(xs, m + 1, n);
    }
  }

  /** Over `n` by `n` matrices, `idot` yields once for every array after the first, raises
      nothing, and yield `k` is the chained product of the first `k + 2` arrays. */
  lemma IDotSquares(xs: seq<Mat>, n: nat)
    requires |xs| >= 2 && AllSquare(xs, n)
    ensures IDotRun(xs).raised.None?
    ensures |IDotRun(xs).outputs| == |xs| - 1
    ensures forall k :: 0 <= k < |xs| - 1 ==> IDotRun(xs).outputs[k] == MultiDot(xs[..k + 2])
  {
    SquaresChained(xs, n, 2);
    assert xs[..2][..1] == [xs[0]];
    var first := Product(xs[0], xs[1]);
    assert MultiDot(xs[..2]) == first;
    IDotFromSquares(xs, 2, n);
    var rest := IDotFrom(first, xs[2..]);
    assert IDotRun(xs) == Prepend(first, rest);
    forall k | 0 <= k < |xs| - 1 ensures IDotRun(xs).outputs[k] == MultiDot(xs[..k + 2]) {
      if k > 0 {
        assert IDotRun(xs).outputs[k] == rest.outputs[k - 1];
      }
    }
  }

  /** Over `n` by `n` matrices the last yield of `idot` is the chained product of all of them,
      however it is evaluated, as `numpy.linalg.multi_dot` computes it. */
  lemma IDotLast(xs: seq<Mat>, n: nat)
    requires |xs| >= 2 && AllSquare(xs, n)
    ensures Chained(xs)
    ensures IDotRun(xs).outputs != []
    ensures IDotRun(xs).outputs[|IDotRun(xs).outputs| - 1] == MultiDot(xs) == MultiDotRight(xs)
  {
    IDotSquares(xs, n);
    assert xs[..|xs|] == xs;
    SquaresChained(xs, n, |xs|);
    MultiDotOrder(xs);
  }

  /** The storage of `buf` as a matrix. */
  function Contents(buf: array2<int>): (r: Mat)
    reads buf
    ensures r.rows == buf.Length0 && r.cols == buf.Length1
    ensures forall i: nat, j: nat :: i < buf.Length0 && j < buf.Length1 ==> At(r, i, j) == buf[i, j]
  {
    Matrix(buf.Length0, buf.Length1,
      seq(buf.Length0, i requires 0 <= i < buf.Length0 reads buf =>
        seq(buf.Length1, j requires 0 <= j < buf.Length1 reads buf => buf[i, j])))
  }

  /** `buf[:] = x`, entry by entry. */
  method AssignInto(buf: array2<int>, x: Mat)
    requires Broadcastable(x, buf.Length0, buf.Length1)
    modifies buf
    ensures Assign(old(Contents(buf)), x) == Ok(Contents(buf))
  {
    var i := 0;
    while i < buf.Length0
      invariant 0 <= i <= buf.Length0
      invariant forall r, c :: 0 <= r < i && 0 <= c < buf.Length1 ==> buf[r, c] == Broadcast(x, r, c)
    {
      var j := 0;
      while j < buf.Length1
        invariant 0 <= j <= buf.Length1
        invariant forall r, c :: 0 <= r < i && 0 <= c < buf.Length1 ==> buf[r, c] == Broadcast(x, r, c)
        invariant forall c :: 0 <= c < j ==> buf[i, c] == Broadcast(x, i, c)
      {
        buf[i, j] := Broadcast(x, i, j);
        j := j + 1;
      }
      i := i + 1;
    }
    var r := Assign(old(Contents(buf)), x).value;
    MatrixEquality(r, Contents(buf));
  }

  /** `idot` as the loop it is, over a stream whose first array exists: the first product is a
      fresh buffer `buf`, every later product is written into it, and `snapshots[k]` is its
      content at yield `k`, so its final content is the last yield. */
  method IDotLoop(xs: seq<Mat>) returns (buf: array2?<int>, snapshots: seq<Mat>, raised: Option<Exception>)
    requires xs != []
    ensures Run(snapshots, raised) == IDotRun(xs)
    ensures buf != null ==> fresh(buf)
    ensures snapshots != [] ==> buf != null && Contents(buf) == snapshots[|snapshots| - 1]
  {
    if |xs| == 1 {
      return null, [], Some(StoppedInsideGenerator);
    }
    var first := Dot(xs[0], xs[1]);
    if first.Err? {
      return null, [], Some(first.error);
    }
    var b := new int[first.value.rows, first.value.cols];
    AssignExact(Contents(b), first.value);
    AssignInto(b, first.value);
    buf := b;
    snapshots := [first.value];
    var i := 2;
    while i < |xs|
      invariant 2 <= i <= |xs|
      invariant snapshots != [] && Contents(b) == snapshots[|snapshots| - 1]
      invariant PrependAll(snapshots, IDotFrom(Contents(b), xs[i..])) == IDotRun(xs)
      decreases |xs| - i
    {
      var acc := Contents(b);
      assert xs[i..][0] == xs[i] && xs[i..][1..] == xs[i + 1..];
      var p := Dot(acc, xs[i]);
      if p.Err? {
        return buf, snapshots, Some(p.error);
      }
      if !Broadcastable(p.value, b.Length0, b.Length1) {
        return buf, snapshots, Some(Exception(ValueError, CannotBroadcast));
      }
      AssignInto(b, p.value);
      PrependAllStep(snapshots, Contents(b), IDotFrom(Contents(b), xs[i + 1..]));
      snapshots := snapshots + [Contents(b)];
      i := i + 1;
    }
    assert xs[i..] == [];
    raised := None;
  }

  // ---------------------------------------------------------------------------
  // itensordot with its default axes=2

  /** Row `i` of `a` against row `i` of `b`, entry by entry, over the first `n` columns. */
  function RowPairs(a: Mat, b: Mat, i: nat, n: nat): int {
    if n == 0 then 0 else RowPairs(a, b, i, n - 1) + At(a, i, n - 1) * At(b, i, n - 1)
  }

  /** The products of entries at equal positions of `a` and `b`, over the first `n` rows. */
  function Frobenius(a: Mat, b: Mat, n: nat): int {
    if n == 0 then 0 else Frobenius(a, b, n - 1) + RowPairs(a, b, n - 1, a.cols)
  }

  /** `np.tensordot(a, b, axes=2)` on two matrices contracts both axes of each, giving a 0-d
      array; the sizes must agree axis by axis, else ValueError. */
  function TensorDot(a: Mat, b: Mat): (r: Result<int>)
    ensures r.Ok? <==> a.rows == b.rows && a.cols == b.cols
    ensures r.Err? ==> r.error == Exception(ValueError, ShapeMismatch)
  {
    if a.rows == b.rows && a.cols == b.cols then Ok(Frobenius(a, b, a.rows)) else Err(Exception(ValueError, ShapeMismatch))
  }

  lemma {:induction false} RowPairsSymmetric(a: Mat, b: Mat, i: nat, n: nat)
    ensures RowPairs(a, b, i, n) == RowPairs(b, a, i, n)
    decreases n
  {
    if n > 0 {
      RowPairsSymmetric(a, b, i, n - 1);
    }
  }

  lemma {:induction false} FrobeniusSymmetric(a: Mat, b: Mat, n: nat)
    requires a.cols == b.cols
    ensures Frobenius(a, b, n) == Frobenius(b, a, n)
    decreases n
  {
    if n > 0 {
      FrobeniusSymmetric(a, b, n - 1);
      RowPairsSymmetric(a, b, n - 1, a.cols);
    }
  }

  /** The contraction does not depend on the order of its operands. */
  lemma TensorDotSymmetric(a: Mat, b: Mat)
    ensures TensorDot(a, b).Ok? <==> TensorDot(b, a).Ok?
    ensures TensorDot(a, b).Ok? ==> TensorDot(a, b).value == TensorDot(b, a).value
  {
    if a.rows == b.rows && a.cols == b.cols {
      FrobeniusSymmetric(a, b, a.rows);
    }
  }

  lemma {:induction false} RowSquares(a: Mat, i: nat, n: nat)
    ensures RowPairs(a, a, i, n) >= 0
    decreases n
  {
    if n > 0 {
      RowSquares(a, i, n - 1);
      var v := At(a, i, n - 1);
      assert v * v >= 0 by {
        if v < 0 {
          assert v * v == (-v) * (-v);
        }
      }
    }
  }

  lemma {:induction false} FrobeniusSquares(a: Mat, n: nat)
    ensures Frobenius(a, a, n) >= 0
    decreases n
  {
    if n > 0 {
      FrobeniusSquares(a, n - 1);
      RowSquares(a, n - 1, a.cols);
    }
  }

  /** A matrix contracted with itself is its sum of squares, never negative. */
  lemma TensorDotSelf(a: Mat)
    ensures TensorDot(a, a).Ok? && TensorDot(a, a).value >= 0
  {
    FrobeniusSquares(a, a.rows);
  }

  /** `itensordot(arrays)` drained, over a stream whose first array exists. Its first yield is a
      0-d array; contracting that accumulator with a third array looks up two axes it does not
      have, which raises IndexError. */
  function ITensorDotRun(xs: seq<Mat>): (r: Run<int>)
    requires xs != []
    ensures |r.outputs| <= 1
    ensures |xs| == 1 ==> r == Run([], Some(StoppedInsideGenerator))
    ensures |xs| >= 2 ==> (r.outputs != [] <==> TensorDot(xs[0], xs[1]).Ok?)
    ensures r.outputs != [] ==> r.outputs[0] == TensorDot(xs[0], xs[1]).value
    ensures r.outputs != [] ==> (r.raised.None? <==> |xs| == 2)
    ensures r.outputs != [] && |xs| > 2 ==> r.raised == Some(Exception(IndexError, ContractionFailed))
  {
    if |xs| == 1 then Run([], Some(StoppedInsideGenerator))
    else
      var first := TensorDot(xs[0], xs[1]);
      if first.Err? then Run([], Some(first.error))
      else Run([first.value], if |xs| > 2 then Some(Exception(IndexError, ContractionFailed)) else None)
  }

  /** `itensordot(arrays)`: an empty stream fails when the function is called. */
  function ITensorDot(xs: seq<Mat>): (r: Result<Run<int>>)
    ensures r.Err? <==> xs == []
    ensures r.Err? ==> r.error == Exception(StopIteration, IteratorExhausted)
    ensures r.Ok? ==> r.value == ITensorDotRun(xs)
  {
    if xs == [] then Err(Exception(StopIteration, IteratorExhausted)) else Ok(ITensorDotRun(xs))
  }
}
