/** Streaming statistics (npstreams/stats.py), one element lane at a time: `xs[k]` is the
    element at a fixed position of the `k`-th array of the stream, reduced along the new
    axis, and `ws[k]` the weight broadcast to it. Arithmetic is over `real`, so the formulas
    hold exactly. */
module Stats {
  import opened Wrappers
  import opened IterUtils

  /** One element of a floating-point array: a number, or NaN. A division by zero, which
      NumPy answers with an infinity or NaN, is NaN here as well. */
  datatype Sample = Val(x: real) | NaN

  function Plus(a: Sample, b: Sample): Sample {
    if a.NaN? || b.NaN? then NaN else Val(a.x + b.x)
  }

  function Minus(a: Sample, b: Sample): Sample {
    if a.NaN? || b.NaN? then NaN else Val(a.x - b.x)
  }

  function Times(a: Sample, b: Sample): Sample {
    if a.NaN? || b.NaN? then NaN else Val(a.x * b.x)
  }

  function Div(a: Sample, b: Sample): Sample {
    if a.NaN? || b.NaN? || b.x == 0.0 then NaN else Val(a.x / b.x)
  }

  /** `np.square`. */
  function Sq(a: Sample): Sample {
    Times(a, a)
  }

  // ---------------------------------------------------------------------------
  // Weights and running sums

  /** `repeat(1)`, as far as the stream reaches. */
  function Ones(n: nat): (r: seq<real>)
    ensures |r| == n && forall k :: 0 <= k < n ==> r[k] == 1.0
  {
    seq(n, _ => 1.0)
  }

  /** The weights paired with a stream of `n` arrays: `None` stands for `repeat(1)`. */
  function Weights(weights: Option<seq<real>>, n: nat): seq<real> {
    match weights
    case None => Ones(n)
    case Some(ws) => ws
  }

  /** The weight an element gets: with `ignore_nan`, `logical_not(isnan(x)) * w`. */
  function Masked(x: Sample, w: real, ignoreNan: bool): real {
    if ignoreNan && x.NaN? then 0.0 else w
  }

  /** What an element adds to the weighted sum: `x * w` with the masked weight; the reduction
      with `ignore_nan` then turns a NaN product into 0, the identity of addition. */
  function Term(x: Sample, w: real, ignoreNan: bool): Sample {
    var t := Times(x, Val(Masked(x, w, ignoreNan)));
    if ignoreNan && t.NaN? then Val(0.0) else t
  }

  /** The running weighted sum over the first `n` elements. */
  function WeightedSum(xs: seq<Sample>, ws: seq<real>, ignoreNan: bool, n: nat): Sample
    requires n <= |xs| && n <= |ws|
  {
    if n == 0 then Val(0.0) else Plus(WeightedSum(xs, ws, ignoreNan, n - 1), Term(xs[n - 1], ws[n - 1], ignoreNan))
  }

  /** The running sum of the masked weights of the first `n` elements. */
  function WeightTotal(xs: seq<Sample>, ws: seq<real>, ignoreNan: bool, n: nat): real
    requires n <= |xs| && n <= |ws|
  {
    if n == 0 then 0.0 else WeightTotal(xs, ws, ignoreNan, n - 1) + Masked(xs[n - 1], ws[n - 1], ignoreNan)
  }

  /** The running (unweighted) sum over the first `n` elements. */
  function PlainSum(xs: seq<Sample>, n: nat): Sample
    requires n <= |xs|
  {
    if n == 0 then Val(0.0) else Plus(PlainSum(xs, n - 1), xs[n - 1])
  }

  // ---------------------------------------------------------------------------
  // _iaverage, iaverage, average, imean, mean

  /** A step of `_iaverage`: the running weighted sum and the running sum of weights. */
  datatype Partial = Partial(total: Sample, weight: real)

  /** `truediv(*element)`. */
  function Ratio(p: Partial): Sample {
    Div(p.total, Val(p.weight))
  }

  /** How many steps a stream of `n` arrays and its weights give: `map` and `zip` stop at the
      shorter of the two. */
  function Paired(n: nat, weights: Option<seq<real>>): (r: nat)
    ensures r <= n && r <= |Weights(weights, n)|
    ensures weights.None? ==> r == n
  {
    Min(n, |Weights(weights, n)|)
  }

  /** `_iaverage(arrays, weights=..., ignore_nan=...)` along the new axis. The stream wrapper
      peeks when it is called, so an empty stream raises StopIteration right away. Without
      weights and without `ignore_nan` it pairs the running sums with `count(1)`; otherwise an
      empty weight stream makes the reduction of the weights fail inside the generator. */
  function IAveragePrimitives(xs: seq<Sample>, weights: Option<seq<real>>, ignoreNan: bool): (r: Result<Run<Partial>>)
    ensures r.Err? <==> xs == []
    ensures r.Err? ==> r.error == Exception(StopIteration, IteratorExhausted)
    ensures r.Ok? ==> (r.value.raised.None? <==> Paired(|xs|, weights) > 0)
    ensures r.Ok? && r.value.raised.Some? ==> r.value == Run([], Some(StoppedInsideGenerator))
    ensures r.Ok? && r.value.raised.None? ==> |r.value.outputs| == Paired(|xs|, weights)
  {
    if xs == [] then Err(Exception(StopIteration, IteratorExhausted))
    else if weights.None? && !ignoreNan then
      Ok(Run(seq(|xs|, k requires 0 <= k < |xs| => Partial(PlainSum(xs, k + 1), (k + 1) as real)), None))
    else
      var ws := Weights(weights, |xs|);
      var n := Paired(|xs|, weights);
      if n == 0 then Ok(Run([], Some(StoppedInsideGenerator)))
      else Ok(Run(seq(n, k requires 0 <= k < n => Partial(WeightedSum(xs, ws, ignoreNan, k + 1), WeightTotal(xs, ws, ignoreNan, k + 1))), None))
  }

  /** `iaverage(arrays, weights=..., ignore_nan=...)` drained: `_iaverage` is called inside the
      generator, so its StopIteration becomes RuntimeError. */
  function IAverage(xs: seq<Sample>, weights: Option<seq<real>>, ignoreNan: bool): (r: Run<Sample>)
    ensures xs == [] ==> r == Run([], Some(StoppedInsideGenerator))
    ensures xs != [] ==> (r.raised.None? <==> Paired(|xs|, weights) > 0)
    ensures r.raised.None? ==> |r.outputs| == Paired(|xs|, weights)
  {
    match IAveragePrimitives(xs, weights, ignoreNan)
    case Err(_) => Run([], Some(StoppedInsideGenerator))
    case Ok(run) => Run(seq(|run.outputs|, k requires 0 <= k < |run.outputs| => Ratio(run.outputs[k])), run.raised)
  }

  /** `average(arrays, weights=..., ignore_nan=...)`: the last ratio. */
  function Average(xs: seq<Sample>, weights: Option<seq<real>>, ignoreNan: bool): Result<Sample> {
    var run :- IAveragePrimitives(xs, weights, ignoreNan);
    var p :- LastOf(run);
    Ok(Ratio(p))
  }

  /** `imean(arrays, ignore_nan=...)`. */
  function IMean(xs: seq<Sample>, ignoreNan: bool): Run<Sample> {
    IAverage(xs, None, ignoreNan)
  }

  /** `mean(arrays, ignore_nan=...)`. */
  function Mean(xs: seq<Sample>, ignoreNan: bool): Result<Sample> {
    Average(xs, None, ignoreNan)
  }

  /** Multiplying by the weight 1 changes nothing. */
  lemma {:induction false} UnitWeights(xs: seq<Sample>, n: nat)
    requires n <= |xs|
    ensures WeightedSum(xs, Ones(|xs|), false, n) == PlainSum(xs, n)
    ensures WeightTotal(xs, Ones(|xs|), false, n) == n as real
    decreases n
  {
    if n > 0 {
      UnitWeights(xs, n - 1);
    }
  }

  /** The shortcut `_iaverage` takes without weights and `ignore_nan` gives what the general
      path gives with a weight of 1 for every array. */
  lemma ShortcutIsUnitWeights(xs: seq<Sample>)
    requires xs != []
    ensures IAveragePrimitives(xs, None, false) == IAveragePrimitives(xs, Some(Ones(|xs|)), false)
  {
    var a := IAveragePrimitives(xs, None, false).value;
    var b := IAveragePrimitives(xs, Some(Ones(|xs|)), false).value;
    assert Paired(|xs|, Some(Ones(|xs|))) == |xs|;
    assert |a.outputs| == |b.outputs| && a.raised == b.raised;
    forall k | 0 <= k < |xs| ensures a.outputs[k] == b.outputs[k] {
      UnitWeights(xs, k + 1);
    }
    assert a.outputs == b.outputs;
  }

  /** `iaverage` yields once per array (as long as there are weights for it), and step `k` is
      the running weighted sum divided by the running sum of weights. */
  lemma IAverageSteps(xs: seq<Sample>, weights: Option<seq<real>>, ignoreNan: bool)
    requires xs != [] && Paired(|xs|, weights) > 0
    ensures var ws := Weights(weights, |xs|);
            && IAverage(xs, weights, ignoreNan).raised.None?
            && |IAverage(xs, weights, ignoreNan).outputs| == Paired(|xs|, weights)
            && forall k :: 0 <= k < Paired(|xs|, weights) ==>
                 IAverage(xs, weights, ignoreNan).outputs[k]
                 == Div(WeightedSum(xs, ws, ignoreNan, k + 1), Val(WeightTotal(xs, ws, ignoreNan, k + 1)))
  {
    if weights.None? && !ignoreNan {
      ShortcutIsUnitWeights(xs);
    }
  }

  /** `average` is the last value `iaverage` yields, and fails where `iaverage` fails
      (StopIteration at the call where `iaverage` raises RuntimeError inside the generator). */
  lemma AverageIsLastStep(xs: seq<Sample>, weights: Option<seq<real>>, ignoreNan: bool)
    ensures var run := IAverage(xs, weights, ignoreNan);
            && (Average(xs, weights, ignoreNan).Ok? <==> run.raised.None?)
            && (run.raised.None? ==> run.outputs != [] && Average(xs, weights, ignoreNan).value == run.outputs[|run.outputs| - 1])
            && (xs == [] ==> Average(xs, weights, ignoreNan) == Err(Exception(StopIteration, IteratorExhausted)))
            && (xs != [] && run.raised.Some? ==> Average(xs, weights, ignoreNan) == Err(StoppedInsideGenerator))
  {
  }

  /** The arithmetic mean of numbers: `mean` over a NaN-free lane is the sum over the count. */
  lemma MeanOfNumbers(xs: seq<Sample>, ignoreNan: bool)
    requires xs != [] && NaN !in xs
    ensures PlainSum(xs, |xs|).Val?
    ensures Mean(xs, ignoreNan) == Ok(Val(PlainSum(xs, |xs|).x / (|xs| as real)))
  {
    var n := |xs|;
    NumbersSum(xs, n);
    AverageIsLastStep(xs, None, ignoreNan);
    IAverageSteps(xs, None, ignoreNan);
    UnitWeights(xs, n);
    if ignoreNan {
      NumbersIgnoreNothing(xs, Ones(n), n);
    }
    assert IAverage(xs, None, ignoreNan).outputs[n - 1] == Div(PlainSum(xs, n), Val(n as real));
  }

  lemma {:induction false} NumbersSum(xs: seq<Sample>, n: nat)
    requires n <= |xs| && NaN !in xs
    ensures PlainSum(xs, n).Val?
    decreases n
  {
    if n > 0 {
      NumbersSum(xs, n - 1);
      assert xs[n - 1] in xs;
    }
  }

  /** On a NaN-free lane, `ignore_nan` changes no weight and no term. */
  lemma {:induction false} NumbersIgnoreNothing(xs: seq<Sample>, ws: seq<real>, n: nat)
    requires n <= |xs| && n <= |ws| && NaN !in xs
    ensures WeightedSum(xs, ws, true, n) == WeightedSum(xs, ws, false, n)
    ensures WeightTotal(xs, ws, true, n) == WeightTotal(xs, ws, false, n)
    decreases n
  {
    if n > 0 {
      NumbersIgnoreNothing(xs, ws, n - 1);
      assert xs[n - 1] in xs;
    }
  }

  /** `c` for each of `n` arrays. */
  function Constant(c: real, n: nat): (r: seq<real>)
    ensures |r| == n && forall k :: 0 <= k < n ==> r[k] == c
  {
    seq(n, _ => c)
  }

  /** The same non-zero weight on every array scales both running sums by it. */
  lemma {:induction false} ScaledSums(xs: seq<Sample>, c: real, n: nat)
    requires n <= |xs| && c != 0.0
    ensures WeightTotal(xs, Constant(c, |xs|), false, n) == c * n as real
    ensures PlainSum(xs, n).Val? <==> WeightedSum(xs, Constant(c, |xs|), false, n).Val?
    ensures PlainSum(xs, n).Val? ==> WeightedSum(xs, Constant(c, |xs|), false, n).x == c * PlainSum(xs, n).x
    decreases n
  {
    if n > 0 {
      ScaledSums(xs, c, n - 1);
      var x := xs[n - 1];
      if x.Val? && PlainSum(xs, n - 1).Val? {
        assert c * (PlainSum(xs, n - 1).x + x.x) == c * PlainSum(xs, n - 1).x + x.x * c;
      }
    }
  }

  /** A common non-zero factor cancels from a quotient. */
  lemma CancelFactor(s: real, c: real, n: real)
    requires c != 0.0 && n != 0.0
    ensures (c * s) / (c * n) == s / n
  {
    var q := s / n;
    assert s == q * n;
    assert c * s == q * (c * n);
  }

  /** Step `k` of the average with the constant weight `c` is step `k` of the mean. */
  lemma EqualWeightsStep(xs: seq<Sample>, c: real, k: nat)
    requires k < |xs| && c > 0.0
    ensures Div(WeightedSum(xs, Constant(c, |xs|), false, k + 1), Val(WeightTotal(xs, Constant(c, |xs|), false, k + 1)))
         == Div(WeightedSum(xs, Ones(|xs|), false, k + 1), Val(WeightTotal(xs, Ones(|xs|), false, k + 1)))
  {
    ScaledSums(xs, c, k + 1);
    UnitWeights(xs, k + 1);
    var n := (k + 1) as real;
    if PlainSum(xs, k + 1).Val? {
      CancelFactor(PlainSum(xs, k + 1).x, c, n);
    }
  }

  /** The same positive weight on every array gives the running mean. */
  lemma EqualWeights(xs: seq<Sample>, c: real)
    requires xs != [] && c > 0.0
    ensures IAverage(xs, Some(Constant(c, |xs|)), false) == IMean(xs, false)
  {
    var ws := Constant(c, |xs|);
    IAverageSteps(xs, Some(ws), false);
    IAverageSteps(xs, None, false);
    var a := IAverage(xs, Some(ws), false);
    var b := IMean(xs, false);
    assert |a.outputs| == |b.outputs| == |xs|;
    forall k | 0 <= k < |xs| ensures a.outputs[k] == b.outputs[k] {
      EqualWeightsStep(xs, c, k);
    }
    assert a.outputs == b.outputs;
  }

  // ---------------------------------------------------------------------------
  // ignore_nan

  /** The numbers among the first `n` elements, each with its weight; NaN elements are
      dropped. */
  function Kept(xs: seq<Sample>, ws: seq<real>, n: nat): seq<(real, real)>
    requires n <= |xs| && n <= |ws|
  {
    if n == 0 then []
    else Kept(xs, ws, n - 1) + (if xs[n - 1].NaN? then [] else [(xs[n - 1].x, ws[n - 1])])
  }

  /** The weighted sum of kept numbers. */
  function KeptSum(ps: seq<(real, real)>): real {
    if ps == [] then 0.0 else KeptSum(ps[..|ps| - 1]) + ps[|ps| - 1].0 * ps[|ps| - 1].1
  }

  /** The sum of the weights of kept numbers. */
  function KeptWeight(ps: seq<(real, real)>): real {
    if ps == [] then 0.0 else KeptWeight(ps[..|ps| - 1]) + ps[|ps| - 1].1
  }

  /** With `ignore_nan` the running sums are those of the numbers alone: a NaN element adds
      nothing to the weighted sum and nothing to the sum of weights. */
  lemma {:induction false} IgnoreNanKeepsNumbers(xs: seq<Sample>, ws: seq<real>, n: nat)
    requires n <= |xs| && n <= |ws|
    ensures WeightedSum(xs, ws, true, n) == Val(KeptSum(Kept(xs, ws, n)))
    ensures WeightTotal(xs, ws, true, n) == KeptWeight(Kept(xs, ws, n))
    decreases n
  {
    if n > 0 {
      IgnoreNanKeepsNumbers(xs, ws, n - 1);
      KeptStep(xs, ws, n);
      var t := Term(xs[n - 1], ws[n - 1], true);
      var before := KeptSum(Kept(xs, ws, n - 1));
      assert WeightedSum(xs, ws, true, n) == Plus(Val(before), t);
      assert Plus(Val(before), t) == Val(before + t.x);
    }
  }

  /** What the `n`-th element adds to the kept numbers' sums. */
  lemma KeptStep(xs: seq<Sample>, ws: seq<real>, n: nat)
    requires 0 < n <= |xs| && n <= |ws|
    ensures var t := Term(xs[n - 1], ws[n - 1], true);
            && t.Val?
            && KeptSum(Kept(xs, ws, n)) == KeptSum(Kept(xs, ws, n - 1)) + t.x
            && KeptWeight(Kept(xs, ws, n)) == KeptWeight(Kept(xs, ws, n - 1)) + Masked(xs[n - 1], ws[n - 1], true)
  {
    var before := Kept(xs, ws, n - 1);
    var x := xs[n - 1];
    if x.NaN? {
      assert Kept(xs, ws, n) == before + [] == before;
    } else {
      assert Kept(xs, ws, n) == before + [(x.x, ws[n - 1])];
      KeptAppend(before, (x.x, ws[n - 1]));
    }
  }

  lemma KeptAppend(ps: seq<(real, real)>, p: (real, real))
    ensures KeptSum(ps + [p]) == KeptSum(ps) + p.0 * p.1
    ensures KeptWeight(ps + [p]) == KeptWeight(ps) + p.1
  {
    assert (ps + [p])[..|ps|] == ps;
  }

  /** `iaverage(..., ignore_nan=True)` step `k` is the weighted average of the numbers among
      the first `k + 1` elements, and it is NaN exactly when their weights sum to zero (for
      example when every element so far is NaN). */
  lemma IAverageIgnoreNan(xs: seq<Sample>, weights: Option<seq<real>>, k: nat)
    requires xs != [] && k < Paired(|xs|, weights)
    ensures var kept := Kept(xs, Weights(weights, |xs|), k + 1);
            && IAverage(xs, weights, true).raised.None?
            && IAverage(xs, weights, true).outputs[k] == Div(Val(KeptSum(kept)), Val(KeptWeight(kept)))
            && (IAverage(xs, weights, true).outputs[k].NaN? <==> KeptWeight(kept) == 0.0)
  {
    IAverageSteps(xs, weights, true);
    IgnoreNanKeepsNumbers(xs, Weights(weights, |xs|), k + 1);
  }

  /** On a stream without NaN, `ignore_nan` changes nothing. */
  lemma IgnoreNanWithoutNaN(xs: seq<Sample>, weights: Option<seq<real>>)
    requires xs != [] && NaN !in xs
    ensures IAverage(xs, weights, true) == IAverage(xs, weights, false)
  {
    var a := IAverage(xs, weights, true);
    var b := IAverage(xs, weights, false);
    var n := Paired(|xs|, weights);
    if n > 0 {
      IAverageSteps(xs, weights, true);
      IAverageSteps(xs, weights, false);
      forall k | 0 <= k < n ensures a.outputs[k] == b.outputs[k] {
        NumbersIgnoreNothing(xs, Weights(weights, |xs|), k + 1);
      }
      assert a.outputs == b.outputs;
    }
  }

  // ---------------------------------------------------------------------------
  // _ivar, ivar, var, std, istd, sem, isem

  /** A step of `_ivar`: the running average, the running average of squares and the running
      sum of weights. */
  datatype Moments = Moments(avg: Sample, sqAvg: Sample, weight: real)

  /** `map(np.square, arrays)`. */
  function Squares(xs: seq<Sample>): (r: seq<Sample>)
    ensures |r| == |xs| && forall k :: 0 <= k < |xs| ==> r[k] == Sq(xs[k])
  {
    seq(|xs|, k requires 0 <= k < |xs| => Sq(xs[k]))
  }

  /** The weights `_ivar` hands on to its averages: broadcast, masked by NaN with `ignore_nan`,
      and as many as there are steps. */
  function MaskedWeights(xs: seq<Sample>, weights: Option<seq<real>>, ignoreNan: bool): (r: seq<real>)
    ensures |r| == Paired(|xs|, weights)
    ensures forall k :: 0 <= k < |r| ==> r[k] == Masked(xs[k], Weights(weights, |xs|)[k], ignoreNan)
  {
    var ws := Weights(weights, |xs|);
    seq(Paired(|xs|, weights), k requires 0 <= k < Paired(|xs|, weights) => Masked(xs[k], ws[k], ignoreNan))
  }

  /** `_ivar(arrays, weights=..., ignore_nan=...)`: an empty stream raises StopIteration at the
      call; an empty weight stream makes the reduction of the weights fail inside the
      generator; otherwise the averages of the arrays and of their squares, zipped with the
      running sum of the (masked) weights. */
  function IVarPrimitives(xs: seq<Sample>, weights: Option<seq<real>>, ignoreNan: bool): (r: Result<Run<Moments>>)
    ensures r.Err? <==> xs == []
    ensures r.Err? ==> r.error == Exception(StopIteration, IteratorExhausted)
    ensures r.Ok? ==> (r.value.raised.None? <==> Paired(|xs|, weights) > 0)
    ensures r.Ok? && r.value.raised.Some? ==> r.value == Run([], Some(StoppedInsideGenerator))
    ensures r.Ok? && r.value.raised.None? ==> |r.value.outputs| == Paired(|xs|, weights)
  {
    if xs == [] then Err(Exception(StopIteration, IteratorExhausted))
    else
      var mws := MaskedWeights(xs, weights, ignoreNan);
      var n := |mws|;
      if n == 0 then Ok(Run([], Some(StoppedInsideGenerator)))
      else
        var avgs := IAverage(xs, Some(mws), ignoreNan);
        var sqAvgs := IAverage(Squares(xs), Some(mws), ignoreNan);
        Ok(Run(seq(n, k requires 0 <= k < n => Moments(avgs.outputs[k], sqAvgs.outputs[k], WeightTotal(xs, mws, false, k + 1))), None))
  }

  /** `(sq_avg - avg**2) * (swgt / (swgt - ddof))`. */
  function VarOf(m: Moments, ddof: real): Sample {
    Times(Minus(m.sqAvg, Sq(m.avg)), Div(Val(m.weight), Val(m.weight - ddof)))
  }

  /** `(sq_avg - avg**2) * (1 / (swgt - ddof))`, before the square root. */
  function SemSquared(m: Moments, ddof: real): Sample {
    Times(Minus(m.sqAvg, Sq(m.avg)), Div(Val(1.0), Val(m.weight - ddof)))
  }

  /** `np.sqrt` on one element, for a square-root function `root` on non-negative reals: NaN
      stays NaN and a negative number gives NaN. */
  function Root(a: Sample, root: real -> real): Sample {
    if a.NaN? || a.x < 0.0 then NaN else Val(root(a.x))
  }

  /** A generator that maps `f` over every step of `_ivar`; the StopIteration `_ivar` raises on
      an empty stream surfaces inside it as RuntimeError. */
  function MapMoments(xs: seq<Sample>, weights: Option<seq<real>>, ignoreNan: bool, f: Moments -> Sample): (r: Run<Sample>)
    ensures xs == [] ==> r == Run([], Some(StoppedInsideGenerator))
    ensures xs != [] ==> (r.raised.None? <==> Paired(|xs|, weights) > 0)
    ensures r.raised.None? ==> |r.outputs| == Paired(|xs|, weights)
  {
    match IVarPrimitives(xs, weights, ignoreNan)
    case Err(_) => Run([], Some(StoppedInsideGenerator))
    case Ok(run) => Run(seq(|run.outputs|, k requires 0 <= k < |run.outputs| => f(run.outputs[k])), run.raised)
  }

  /** `f` applied to the last step of `_ivar`, the way `var` and `sem` use `last`. */
  function LastMoments(xs: seq<Sample>, weights: Option<seq<real>>, ignoreNan: bool, f: Moments -> Sample): Result<Sample> {
    var run :- IVarPrimitives(xs, weights, ignoreNan);
    var m :- LastOf(run);
    Ok(f(m))
  }

  /** `ivar(arrays, ddof=..., weights=..., ignore_nan=...)` drained. */
  function IVar(xs: seq<Sample>, ddof: real, weights: Option<seq<real>>, ignoreNan: bool): Run<Sample> {
    MapMoments(xs, weights, ignoreNan, m => VarOf(m, ddof))
  }

  /** `var(arrays, ddof=..., weights=..., ignore_nan=...)`. */
  function Var(xs: seq<Sample>, ddof: real, weights: Option<seq<real>>, ignoreNan: bool): Result<Sample> {
    LastMoments(xs, weights, ignoreNan, m => VarOf(m, ddof))
  }

  /** `istd(...)`: the square root of every `ivar` step. */
  function IStd(xs: seq<Sample>, ddof: real, weights: Option<seq<real>>, ignoreNan: bool, root: real -> real): Run<Sample> {
    var run := IVar(xs, ddof, weights, ignoreNan);
    Run(seq(|run.outputs|, k requires 0 <= k < |run.outputs| => Root(run.outputs[k], root)), run.raised)
  }

  /** `std(...)`: the square root of `var`. */
  function Std(xs: seq<Sample>, ddof: real, weights: Option<seq<real>>, ignoreNan: bool, root: real -> real): Result<Sample> {
    var v :- Var(xs, ddof, weights, ignoreNan);
    Ok(Root(v, root))
  }

  /** `isem(...)`. */
  function ISem(xs: seq<Sample>, ddof: real, weights: Option<seq<real>>, ignoreNan: bool, root: real -> real): Run<Sample> {
    MapMoments(xs, weights, ignoreNan, m => Root(SemSquared(m, ddof), root))
  }

  /** `sem(...)`. */
  function Sem(xs: seq<Sample>, ddof: real, weights: Option<seq<real>>, ignoreNan: bool, root: real -> real): Result<Sample> {
    LastMoments(xs, weights, ignoreNan, m => Root(SemSquared(m, ddof), root))
  }

  /** Masking a weight a second time changes nothing. */
  lemma {:induction false} MaskTwice(xs: seq<Sample>, weights: Option<seq<real>>, ignoreNan: bool, n: nat)
    requires n <= Paired(|xs|, weights)
    ensures WeightedSum(xs, MaskedWeights(xs, weights, ignoreNan), ignoreNan, n) == WeightedSum(xs, Weights(weights, |xs|), ignoreNan, n)
    ensures WeightTotal(xs, MaskedWeights(xs, weights, ignoreNan), ignoreNan, n) == WeightTotal(xs, Weights(weights, |xs|), ignoreNan, n)
    ensures WeightTotal(xs, MaskedWeights(xs, weights, ignoreNan), false, n) == WeightTotal(xs, Weights(weights, |xs|), ignoreNan, n)
    decreases n
  {
    if n > 0 {
      MaskTwice(xs, weights, ignoreNan, n - 1);
    }
  }

  /** Squaring keeps NaN where it was, so the squares are masked like the elements. */
  lemma {:induction false} SquaresMaskAlike(xs: seq<Sample>, ws: seq<real>, ignoreNan: bool, n: nat)
    requires n <= |xs| && n <= |ws|
    ensures WeightTotal(Squares(xs), ws, ignoreNan, n) == WeightTotal(xs, ws, ignoreNan, n)
    decreases n
  {
    if n > 0 {
      SquaresMaskAlike(xs, ws, ignoreNan, n - 1);
    }
  }

  /** Step `k` of `_ivar`, stated on the stream itself: the weighted averages of the elements
      and of their squares over the first `k + 1` arrays, and the sum of their weights. */
  lemma IVarSteps(xs: seq<Sample>, weights: Option<seq<real>>, ignoreNan: bool, k: nat)
    requires xs != [] && k < Paired(|xs|, weights)
    ensures var ws := Weights(weights, |xs|);
            var run := IVarPrimitives(xs, weights, ignoreNan).value;
            var total := WeightTotal(xs, ws, ignoreNan, k + 1);
            && run.raised.None?
            && run.outputs[k] == Moments(Div(WeightedSum(xs, ws, ignoreNan, k + 1), Val(total)),
                                         Div(WeightedSum(Squares(xs), ws, ignoreNan, k + 1), Val(total)),
                                         total)
  {
    var ws := Weights(weights, |xs|);
    var mws := MaskedWeights(xs, weights, ignoreNan);
    assert Weights(Some(mws), |xs|) == mws;
    assert Paired(|xs|, Some(mws)) == |mws|;
    assert Paired(|Squares(xs)|, Some(mws)) == |mws|;
    IAverageSteps(xs, Some(mws), ignoreNan);
    IAverageSteps(Squares(xs), Some(mws), ignoreNan);
    MaskTwice(xs, weights, ignoreNan, k + 1);
    SquaresMaskAlike(xs, mws, ignoreNan, k + 1);
    SquaredMaskTwice(xs, weights, ignoreNan, k + 1);
    var total := WeightTotal(xs, ws, ignoreNan, k + 1);
    assert IAverage(xs, Some(mws), ignoreNan).outputs[k] == Div(WeightedSum(xs, ws, ignoreNan, k + 1), Val(total));
    assert IAverage(Squares(xs), Some(mws), ignoreNan).outputs[k] == Div(WeightedSum(Squares(xs), ws, ignoreNan, k + 1), Val(total));
    assert WeightTotal(xs, mws, false, k + 1) == total;
    IVarPrimitivesAt(xs, weights, ignoreNan, k);
  }

  /** Step `k` of `_ivar` zips step `k` of the two averages with the running weight. */
  lemma IVarPrimitivesAt(xs: seq<Sample>, weights: Option<seq<real>>, ignoreNan: bool, k: nat)
    requires xs != [] && k < Paired(|xs|, weights)
    ensures var mws := MaskedWeights(xs, weights, ignoreNan);
            var run := IVarPrimitives(xs, weights, ignoreNan).value;
            && run.raised.None? && k < |run.outputs|
            && run.outputs[k] == Moments(IAverage(xs, Some(mws), ignoreNan).outputs[k],
                                         IAverage(Squares(xs), Some(mws), ignoreNan).outputs[k],
                                         WeightTotal(xs, mws, false, k + 1))
  {
  }

  /** Masking by the squares' NaN is masking by the elements' NaN. */
  lemma {:induction false} SquaredMaskTwice(xs: seq<Sample>, weights: Option<seq<real>>, ignoreNan: bool, n: nat)
    requires n <= Paired(|xs|, weights)
    ensures WeightedSum(Squares(xs), MaskedWeights(xs, weights, ignoreNan), ignoreNan, n) == WeightedSum(Squares(xs), Weights(weights, |xs|), ignoreNan, n)
    decreases n
  {
    if n > 0 {
      SquaredMaskTwice(xs, weights, ignoreNan, n - 1);
    }
  }

  /** `var` is the last value `ivar` yields, and fails where `ivar` fails (StopIteration at the
      call where `ivar` raises RuntimeError inside the generator). */
  lemma VarIsLastIVar(xs: seq<Sample>, ddof: real, weights: Option<seq<real>>, ignoreNan: bool)
    ensures var run := IVar(xs, ddof, weights, ignoreNan);
            && (Var(xs, ddof, weights, ignoreNan).Ok? <==> run.raised.None?)
            && (run.raised.None? ==> run.outputs != [] && Var(xs, ddof, weights, ignoreNan).value == run.outputs[|run.outputs| - 1])
            && (xs == [] ==> Var(xs, ddof, weights, ignoreNan) == Err(Exception(StopIteration, IteratorExhausted)))
            && (xs != [] && run.raised.Some? ==> Var(xs, ddof, weights, ignoreNan) == Err(StoppedInsideGenerator))
  {
  }

  /** `sem` is the last value `isem` yields, and fails where `isem` fails. */
  lemma SemIsLastISem(xs: seq<Sample>, ddof: real, weights: Option<seq<real>>, ignoreNan: bool, root: real -> real)
    ensures var run := ISem(xs, ddof, weights, ignoreNan, root);
            && (Sem(xs, ddof, weights, ignoreNan, root).Ok? <==> run.raised.None?)
            && (run.raised.None? ==> run.outputs != [] && Sem(xs, ddof, weights, ignoreNan, root).value == run.outputs[|run.outputs| - 1])
  {
  }

  /** `std` is the last value `istd` yields, and fails where `istd` fails. */
  lemma StdIsLastIStd(xs: seq<Sample>, ddof: real, weights: Option<seq<real>>, ignoreNan: bool, root: real -> real)
    ensures var run := IStd(xs, ddof, weights, ignoreNan, root);
            && (Std(xs, ddof, weights, ignoreNan, root).Ok? <==> run.raised.None?)
            && (run.raised.None? ==> run.outputs != [] && Std(xs, ddof, weights, ignoreNan, root).value == run.outputs[|run.outputs| - 1])
  {
    VarIsLastIVar(xs, ddof, weights, ignoreNan);
  }

  // ---------------------------------------------------------------------------
  // What the variance means

  /** The number an element holds (0 for NaN, which the lemmas below exclude). */
  function Num(s: Sample): real {
    if s.Val? then s.x else 0.0
  }

  /** The weighted sum of the first `n` elements, `sum(w * x)`. */
  function FirstMoment(xs: seq<Sample>, ws: seq<real>, n: nat): real
    requires n <= |xs| && n <= |ws|
  {
    if n == 0 then 0.0 else FirstMoment(xs, ws, n - 1) + Num(xs[n - 1]) * ws[n - 1]
  }

  /** The weighted sum of squares of the first `n` elements, `sum(w * x**2)`. */
  function SecondMoment(xs: seq<Sample>, ws: seq<real>, n: nat): real
    requires n <= |xs| && n <= |ws|
  {
    if n == 0 then 0.0 else SecondMoment(xs, ws, n - 1) + Num(xs[n - 1]) * Num(xs[n - 1]) * ws[n - 1]
  }

  /** On a NaN-free stream the running sums are plain numbers. */
  lemma NumbersMoments(xs: seq<Sample>, ws: seq<real>, ignoreNan: bool, n: nat)
    requires n <= |xs| && n <= |ws| && NaN !in xs
    ensures WeightedSum(xs, ws, ignoreNan, n) == Val(FirstMoment(xs, ws, n))
    ensures WeightedSum(Squares(xs), ws, ignoreNan, n) == Val(SecondMoment(xs, ws, n))
    ensures WeightTotal(xs, ws, ignoreNan, n) == WeightTotal(xs, ws, false, n)
  {
    NumbersFirstMoment(xs, ws, ignoreNan, n);
    NumbersSecondMoment(xs, ws, ignoreNan, n);
    NumbersWeight(xs, ws, ignoreNan, n);
  }

  /** On a NaN-free stream the weighted sum is `sum(w * x)`. */
  lemma {:induction false} NumbersFirstMoment(xs: seq<Sample>, ws: seq<real>, ignoreNan: bool, n: nat)
    requires n <= |xs| && n <= |ws| && NaN !in xs
    ensures WeightedSum(xs, ws, ignoreNan, n) == Val(FirstMoment(xs, ws, n))
    decreases n
  {
    if n > 0 {
      NumbersFirstMoment(xs, ws, ignoreNan, n - 1);
      assert xs[n - 1] in xs;
      var x, w := xs[n - 1].x, ws[n - 1];
      var before := FirstMoment(xs, ws, n - 1);
      NumberTerms(x, w, ignoreNan);
      assert FirstMoment(xs, ws, n) == before + x * w;
      assert WeightedSum(xs, ws, ignoreNan, n) == Plus(Val(before), Val(x * w));
    }
  }

  /** On a NaN-free stream the weighted sum of squares is `sum(w * x**2)`. */
  lemma {:induction false} NumbersSecondMoment(xs: seq<Sample>, ws: seq<real>, ignoreNan: bool, n: nat)
    requires n <= |xs| && n <= |ws| && NaN !in xs
    ensures WeightedSum(Squares(xs), ws, ignoreNan, n) == Val(SecondMoment(xs, ws, n))
    decreases n
  {
    if n > 0 {
      NumbersSecondMoment(xs, ws, ignoreNan, n - 1);
      assert xs[n - 1] in xs;
      var x, w := xs[n - 1].x, ws[n - 1];
      var before := SecondMoment(xs, ws, n - 1);
      NumberTerms(x, w, ignoreNan);
      assert Squares(xs)[n - 1] == Sq(Val(x));
      assert Term(Squares(xs)[n - 1], w, ignoreNan) == Val(x * x * w);
      assert SecondMoment(xs, ws, n) == before + x * x * w;
      assert WeightedSum(Squares(xs), ws, ignoreNan, n) == Plus(Val(before), Val(x * x * w));
    }
  }

  /** On a NaN-free stream masking removes no weight. */
  lemma {:induction false} NumbersWeight(xs: seq<Sample>, ws: seq<real>, ignoreNan: bool, n: nat)
    requires n <= |xs| && n <= |ws| && NaN !in xs
    ensures WeightTotal(xs, ws, ignoreNan, n) == WeightTotal(xs, ws, false, n)
    decreases n
  {
    if n > 0 {
      NumbersWeight(xs, ws, ignoreNan, n - 1);
      assert xs[n - 1] in xs;
    }
  }

  /** What one number adds to the running sums: `x * w`, `x * x * w` and its weight. */
  lemma NumberTerms(x: real, w: real, ignoreNan: bool)
    ensures Term(Val(x), w, ignoreNan) == Val(x * w)
    ensures Term(Sq(Val(x)), w, ignoreNan) == Val(x * x * w)
    ensures Masked(Val(x), w, ignoreNan) == w
  {
  }

  /** `sum(w * (x_j - y)**2)` over the first `n` elements, expanded; it is never negative
      when the weights are not. */
  lemma {:induction false} SpreadAround(xs: seq<Sample>, ws: seq<real>, n: nat, y: real)
    requires n <= |xs| && n <= |ws|
    requires forall k :: 0 <= k < n ==> ws[k] >= 0.0
    ensures SecondMoment(xs, ws, n) - 2.0 * y * FirstMoment(xs, ws, n) + y * y * WeightTotal(xs, ws, false, n) >= 0.0
    decreases n
  {
    if n > 0 {
      SpreadAround(xs, ws, n - 1, y);
      var v, w := Num(xs[n - 1]), ws[n - 1];
      assert v * v * w - 2.0 * y * (v * w) + y * y * w == w * ((v - y) * (v - y));
      assert (v - y) * (v - y) >= 0.0;
      assert w * ((v - y) * (v - y)) >= 0.0;
    }
  }

  /** The weighted Cauchy-Schwarz inequality `sum(w) * sum(w x**2) >= sum(w x)**2`, by the
      update `D(n + 1) = D(n) + w * sum(w_j * (x - x_j)**2)`. */
  lemma {:induction false} Dispersion(xs: seq<Sample>, ws: seq<real>, n: nat)
    requires n <= |xs| && n <= |ws|
    requires forall k :: 0 <= k < n ==> ws[k] >= 0.0
    ensures SecondMoment(xs, ws, n) * WeightTotal(xs, ws, false, n) - FirstMoment(xs, ws, n) * FirstMoment(xs, ws, n) >= 0.0
    decreases n
  {
    if n > 0 {
      Dispersion(xs, ws, n - 1);
      var v, w := Num(xs[n - 1]), ws[n - 1];
      var s0, s1, s2 := WeightTotal(xs, ws, false, n - 1), FirstMoment(xs, ws, n - 1), SecondMoment(xs, ws, n - 1);
      SpreadAround(xs, ws, n - 1, v);
      var e := s2 - 2.0 * v * s1 + v * v * s0;
      assert (s2 + v * v * w) * (s0 + w) - (s1 + v * w) * (s1 + v * w) == (s2 * s0 - s1 * s1) + w * e;
      assert w * e >= 0.0;
    }
  }

  lemma {:induction false} PositiveTotal(xs: seq<Sample>, ws: seq<real>, n: nat)
    requires 0 < n <= |xs| && n <= |ws|
    requires forall k :: 0 <= k < n ==> ws[k] > 0.0
    ensures WeightTotal(xs, ws, false, n) > 0.0
    decreases n
  {
    if n > 1 {
      PositiveTotal(xs, ws, n - 1);
    }
  }

  /** `(b2 / a - (b1 / a)**2) * (a / a)` is not negative when `a b2 >= b1**2`. */
  lemma VarianceOfSums(a: real, b1: real, b2: real)
    requires a > 0.0 && b2 * a - b1 * b1 >= 0.0
    ensures (b2 / a - (b1 / a) * (b1 / a)) * (a / (a - 0.0)) >= 0.0
  {
    var q := b1 / a;
    assert b1 == q * a;
    assert b2 * a - q * q * (a * a) >= 0.0;
    assert a * (b2 - q * q * a) >= 0.0;
    assert b2 - q * q * a >= 0.0;
    assert b2 / a - q * q == (b2 - q * q * a) / a;
    assert a / (a - 0.0) == 1.0;
  }

  /** Step `k` of `ivar` is the variance formula applied to step `k` of `_ivar`. */
  lemma IVarStep(xs: seq<Sample>, ddof: real, weights: Option<seq<real>>, ignoreNan: bool, k: nat)
    requires xs != [] && k < Paired(|xs|, weights)
    ensures IVar(xs, ddof, weights, ignoreNan).raised.None?
    ensures IVar(xs, ddof, weights, ignoreNan).outputs[k] == VarOf(IVarPrimitives(xs, weights, ignoreNan).value.outputs[k], ddof)
  {
  }

  /** On a NaN-free stream, step `k` of `_ivar` holds the ratios of the running sums
      `sum(w)`, `sum(w x)` and `sum(w x**2)`. */
  lemma MomentsOfNumbers(xs: seq<Sample>, weights: Option<seq<real>>, ignoreNan: bool, k: nat)
    requires xs != [] && NaN !in xs && k < Paired(|xs|, weights)
    ensures var ws := Weights(weights, |xs|);
            var a := WeightTotal(xs, ws, false, k + 1);
            IVarPrimitives(xs, weights, ignoreNan).value.outputs[k]
            == Moments(Div(Val(FirstMoment(xs, ws, k + 1)), Val(a)), Div(Val(SecondMoment(xs, ws, k + 1)), Val(a)), a)
  {
    IVarSteps(xs, weights, ignoreNan, k);
    NumbersMoments(xs, Weights(weights, |xs|), ignoreNan, k + 1);
  }

  /** With `ddof = 0`, positive weights and no NaN, every step of `ivar` is a number and not
      negative. */
  lemma IVarNonNegative(xs: seq<Sample>, weights: Option<seq<real>>, ignoreNan: bool, k: nat)
    requires xs != [] && NaN !in xs && k < Paired(|xs|, weights)
    requires forall j :: 0 <= j < |Weights(weights, |xs|)| ==> Weights(weights, |xs|)[j] > 0.0
    ensures IVar(xs, 0.0, weights, ignoreNan).raised.None?
    ensures IVar(xs, 0.0, weights, ignoreNan).outputs[k].Val?
    ensures IVar(xs, 0.0, weights, ignoreNan).outputs[k].x >= 0.0
  {
    IVarStep(xs, 0.0, weights, ignoreNan, k);
    MomentsOfNumbers(xs, weights, ignoreNan, k);
    NumbersVariance(xs, Weights(weights, |xs|), k + 1);
  }

  /** The variance formula on the running sums of a NaN-free stream with positive weights. */
  lemma NumbersVariance(xs: seq<Sample>, ws: seq<real>, n: nat)
    requires 0 < n <= |xs| && n <= |ws|
    requires forall j :: 0 <= j < |ws| ==> ws[j] > 0.0
    ensures var a := WeightTotal(xs, ws, false, n);
            var v := VarOf(Moments(Div(Val(FirstMoment(xs, ws, n)), Val(a)), Div(Val(SecondMoment(xs, ws, n)), Val(a)), a), 0.0);
            v.Val? && v.x >= 0.0
  {
    PositiveTotal(xs, ws, n);
    Dispersion(xs, ws, n);
    var a, b1, b2 := WeightTotal(xs, ws, false, n), FirstMoment(xs, ws, n), SecondMoment(xs, ws, n);
    VarOfSums(Moments(Div(Val(b1), Val(a)), Div(Val(b2), Val(a)), a), a, b1, b2);
  }

  /** The variance formula on running sums `a = sum(w)`, `b1 = sum(w x)`, `b2 = sum(w x**2)`. */
  lemma VarOfSums(m: Moments, a: real, b1: real, b2: real)
    requires a > 0.0 && b2 * a - b1 * b1 >= 0.0
    requires m == Moments(Div(Val(b1), Val(a)), Div(Val(b2), Val(a)), a)
    ensures VarOf(m, 0.0).Val? && VarOf(m, 0.0).x >= 0.0
  {
    VarianceOfSums(a, b1, b2);
  }

  /** `(a * w) / w == a`. */
  lemma CancelWeight(a: real, w: real)
    requires w != 0.0
    ensures (a * w) / w == a
  {
  }

  /** The first step of `ivar` is 0 for a number with a weight other than 0 and `ddof`. */
  lemma IVarStartsAtZero(xs: seq<Sample>, ddof: real, weights: Option<seq<real>>, ignoreNan: bool)
    requires xs != [] && Paired(|xs|, weights) > 0 && xs[0].Val?
    requires Weights(weights, |xs|)[0] != 0.0 && Weights(weights, |xs|)[0] != ddof
    ensures IVar(xs, ddof, weights, ignoreNan).outputs[0] == Val(0.0)
  {
    IVarStep(xs, ddof, weights, ignoreNan, 0);
    IVarSteps(xs, weights, ignoreNan, 0);
    FirstVariance(xs, Weights(weights, |xs|), ignoreNan, ddof);
  }

  /** The variance formula after one number. */
  lemma FirstVariance(xs: seq<Sample>, ws: seq<real>, ignoreNan: bool, ddof: real)
    requires xs != [] && ws != [] && xs[0].Val? && ws[0] != 0.0 && ws[0] != ddof
    ensures var w := WeightTotal(xs, ws, ignoreNan, 1);
            VarOf(Moments(Div(WeightedSum(xs, ws, ignoreNan, 1), Val(w)), Div(WeightedSum(Squares(xs), ws, ignoreNan, 1), Val(w)), w), ddof) == Val(0.0)
  {
    FirstSums(xs, ws, ignoreNan);
    var s1, s2 := WeightedSum(xs, ws, ignoreNan, 1), WeightedSum(Squares(xs), ws, ignoreNan, 1);
    VarOfOne(Moments(Div(s1, Val(ws[0])), Div(s2, Val(ws[0])), ws[0]), s1, s2, xs[0].x, ws[0], ddof);
  }

  /** The running sums after one number `x` with weight `w`. */
  lemma FirstSums(xs: seq<Sample>, ws: seq<real>, ignoreNan: bool)
    requires xs != [] && ws != [] && xs[0].Val?
    ensures WeightTotal(xs, ws, ignoreNan, 1) == ws[0]
    ensures WeightedSum(xs, ws, ignoreNan, 1) == Val(xs[0].x * ws[0])
    ensures WeightedSum(Squares(xs), ws, ignoreNan, 1) == Val(xs[0].x * xs[0].x * ws[0])
  {
    assert Squares(xs)[0] == Val(xs[0].x * xs[0].x);
  }

  /** The variance formula on a single weighted number. */
  lemma VarOfOne(m: Moments, s1: Sample, s2: Sample, x: real, w: real, ddof: real)
    requires w != 0.0 && w != ddof
    requires s1 == Val(x * w) && s2 == Val(x * x * w)
    requires m == Moments(Div(s1, Val(w)), Div(s2, Val(w)), w)
    ensures VarOf(m, ddof) == Val(0.0)
  {
    CancelWeight(x, w);
    CancelWeight(x * x, w);
  }

  /** The square of the standard error is the variance divided by the sum of weights. */
  lemma SemSquaredIsVarOverWeight(m: Moments, ddof: real)
    requires m.weight != 0.0 && m.weight != ddof
    ensures SemSquared(m, ddof) == Div(VarOf(m, ddof), Val(m.weight))
  {
    if m.sqAvg.Val? && m.avg.Val? {
      var e := m.sqAvg.x - m.avg.x * m.avg.x;
      var w, d := m.weight, m.weight - ddof;
      assert w / d == w * (1.0 / d);
      assert e * (w * (1.0 / d)) / w == e * (1.0 / d) by {
        CancelWeight(e * (1.0 / d), w);
      }
    }
  }

  /** Step `k` of `isem` is the square root of step `k` of `ivar` over the sum of weights. */
  lemma ISemFromIVar(xs: seq<Sample>, ddof: real, weights: Option<seq<real>>, ignoreNan: bool, root: real -> real, k: nat)
    requires xs != [] && k < Paired(|xs|, weights)
    requires WeightTotal(xs, Weights(weights, |xs|), ignoreNan, k + 1) != 0.0
    requires WeightTotal(xs, Weights(weights, |xs|), ignoreNan, k + 1) != ddof
    ensures ISem(xs, ddof, weights, ignoreNan, root).outputs[k]
         == Root(Div(IVar(xs, ddof, weights, ignoreNan).outputs[k], Val(WeightTotal(xs, Weights(weights, |xs|), ignoreNan, k + 1))), root)
  {
    IVarSteps(xs, weights, ignoreNan, k);
    SemSquaredIsVarOverWeight(IVarPrimitives(xs, weights, ignoreNan).value.outputs[k], ddof);
  }

  /** `std` with a true square root: on a NaN-free stream with positive weights and
      `ddof = 0`, it is the non-negative number whose square is `var`. */
  lemma StdSquaresToVar(xs: seq<Sample>, weights: Option<seq<real>>, ignoreNan: bool, root: real -> real)
    requires xs != [] && NaN !in xs && Paired(|xs|, weights) > 0
    requires forall j :: 0 <= j < |Weights(weights, |xs|)| ==> Weights(weights, |xs|)[j] > 0.0
    requires forall r :: r >= 0.0 ==> root(r) >= 0.0 && root(r) * root(r) == r
    ensures Std(xs, 0.0, weights, ignoreNan, root).Ok? && Var(xs, 0.0, weights, ignoreNan).Ok?
    ensures Std(xs, 0.0, weights, ignoreNan, root).value.Val? && Std(xs, 0.0, weights, ignoreNan, root).value.x >= 0.0
    ensures Sq(Std(xs, 0.0, weights, ignoreNan, root).value) == Var(xs, 0.0, weights, ignoreNan).value
  {
    VarNonNegative(xs, weights, ignoreNan);
    RootSquares(Var(xs, 0.0, weights, ignoreNan).value, root);
  }

  /** `var` with `ddof = 0`, positive weights and no NaN is a number and not negative. */
  lemma VarNonNegative(xs: seq<Sample>, weights: Option<seq<real>>, ignoreNan: bool)
    requires xs != [] && NaN !in xs && Paired(|xs|, weights) > 0
    requires forall j :: 0 <= j < |Weights(weights, |xs|)| ==> Weights(weights, |xs|)[j] > 0.0
    ensures Var(xs, 0.0, weights, ignoreNan).Ok?
    ensures Var(xs, 0.0, weights, ignoreNan).value.Val? && Var(xs, 0.0, weights, ignoreNan).value.x >= 0.0
  {
    IVarNonNegative(xs, weights, ignoreNan, Paired(|xs|, weights) - 1);
    VarIsLastIVar(xs, 0.0, weights, ignoreNan);
  }

  /** A true square root of a non-negative number squares back to it. */
  lemma RootSquares(v: Sample, root: real -> real)
    requires v.Val? && v.x >= 0.0
    requires forall r :: r >= 0.0 ==> root(r) >= 0.0 && root(r) * root(r) == r
    ensures Root(v, root).Val? && Root(v, root).x >= 0.0 && Sq(Root(v, root)) == v
  {
  }

  // ---------------------------------------------------------------------------
  // ihistogram

  /** `np.histogram` refuses edges that decrease anywhere; equal neighbours are allowed. */
  predicate Increasing(edges: seq<real>) {
    forall i :: 0 <= i < |edges| - 1 ==> edges[i] <= edges[i + 1]
  }

  /** How many bins the edges delimit. */
  function Bins(edges: seq<real>): nat {
    if |edges| < 2 then 0 else |edges| - 1
  }

  /** Bin `i` holds the numbers from its left edge up to, but without, its right edge; the
      last bin also holds its right edge. NaN lies in no bin. */
  predicate InBin(x: Sample, edges: seq<real>, i: nat)
    requires i < Bins(edges)
  {
    x.Val? && edges[i] <= x.x && (x.x < edges[i + 1] || (i == Bins(edges) - 1 && x.x == edges[i + 1]))
  }

  /** How many elements of the flattened array lie in bin `i`. */
  function Count(arr: seq<Sample>, edges: seq<real>, i: nat): nat
    requires i < Bins(edges)
  {
    if arr == [] then 0
    else Count(arr[..|arr| - 1], edges, i) + (if InBin(arr[|arr| - 1], edges, i) then 1 else 0)
  }

  /** `np.histogram(arr, bins=edges)[0]` for edges that do not decrease. */
  function Histogram(arr: seq<Sample>, edges: seq<real>): (r: seq<nat>)
    ensures |r| == Bins(edges)
  {
    seq(Bins(edges), i requires 0 <= i < Bins(edges) => Count(arr, edges, i))
  }

  /** `hist += other`, bin by bin. */
  function AddCounts(a: seq<nat>, b: seq<nat>): (r: seq<nat>)
    requires |a| == |b|
    ensures |r| == |a|
  {
    seq(|a|, i requires 0 <= i < |a| => a[i] + b[i])
  }

  /** The sum of the histograms of the first `n` arrays. */
  function Accumulated(arrays: seq<seq<Sample>>, edges: seq<real>, n: nat): (r: seq<nat>)
    requires 0 < n <= |arrays|
    ensures |r| == Bins(edges)
  {
    if n == 1 then Histogram(arrays[0], edges)
    else AddCounts(Accumulated(arrays, edges, n - 1), Histogram(arrays[n - 1], edges))
  }

  /** `ihistogram(arrays, bins=edges)` drained: the stream wrapper raises StopIteration at the
      call on an empty stream; decreasing edges make the first histogram, computed inside the
      generator, raise ValueError; otherwise yield `k` is the running sum of the histograms
      of the first `k + 1` arrays. */
  function IHistogram(arrays: seq<seq<Sample>>, edges: seq<real>): (r: Result<Run<seq<nat>>>)
    ensures r.Err? <==> arrays == []
    ensures r.Err? ==> r.error == Exception(StopIteration, IteratorExhausted)
    ensures r.Ok? ==> (r.value.raised.None? <==> Increasing(edges))
    ensures r.Ok? && r.value.raised.Some? ==> r.value == Run([], Some(Exception(ValueError, BinsNotIncreasing)))
    ensures r.Ok? && r.value.raised.None? ==> |r.value.outputs| == |arrays|
  {
    if arrays == [] then Err(Exception(StopIteration, IteratorExhausted))
    else if !Increasing(edges) then Ok(Run([], Some(Exception(ValueError, BinsNotIncreasing))))
    else Ok(Run(seq(|arrays|, k requires 0 <= k < |arrays| => Accumulated(arrays, edges, k + 1)), None))
  }

  /** The arrays of a stream, flattened one after the other. */
  function Flatten(arrays: seq<seq<Sample>>): seq<Sample> {
    if arrays == [] then [] else Flatten(arrays[..|arrays| - 1]) + arrays[|arrays| - 1]
  }

  /** Counting is additive over concatenation. */
  lemma {:induction false} CountConcat(a: seq<Sample>, b: seq<Sample>, edges: seq<real>, i: nat)
    requires i < Bins(edges)
    ensures Count(a + b, edges, i) == Count(a, edges, i) + Count(b, edges, i)
    decreases |b|
  {
    if b != [] {
      var b' := b[..|b| - 1];
      assert (a + b)[..|a + b| - 1] == a + b';
      CountConcat(a, b', edges, i);
    } else {
      assert a + b == a;
    }
  }

  /** The running sum of the histograms is the histogram of everything seen so far. */
  lemma {:induction false} AccumulatedIsHistogram(arrays: seq<seq<Sample>>, edges: seq<real>, n: nat)
    requires 0 < n <= |arrays|
    ensures Accumulated(arrays, edges, n) == Histogram(Flatten(arrays[..n]), edges)
    decreases n
  {
    if n == 1 {
      assert arrays[..1][..0] == [];
      assert Flatten(arrays[..1]) == [] + arrays[0];
      assert [] + arrays[0] == arrays[0];
    } else {
      AccumulatedIsHistogram(arrays, edges, n - 1);
      assert arrays[..n][..n - 1] == arrays[..n - 1];
      var seen := Flatten(arrays[..n - 1]);
      assert Flatten(arrays[..n]) == seen + arrays[n - 1];
      forall i | 0 <= i < Bins(edges)
        ensures Accumulated(arrays, edges, n)[i] == Histogram(seen + arrays[n - 1], edges)[i]
      {
        CountConcat(seen, arrays[n - 1], edges, i);
      }
    }
  }

  /** Each yield of `ihistogram` is the histogram of all the arrays pulled so far. */
  lemma IHistogramSoFar(arrays: seq<seq<Sample>>, edges: seq<real>, k: nat)
    requires k < |arrays| && Increasing(edges)
    ensures IHistogram(arrays, edges).value.outputs[k] == Histogram(Flatten(arrays[..k + 1]), edges)
  {
    AccumulatedIsHistogram(arrays, edges, k + 1);
  }

  /** With edges that do not decrease, a number lies in at most one bin. */
  lemma BinsDisjoint(x: Sample, edges: seq<real>, i: nat, j: nat)
    requires Increasing(edges) && i < j < Bins(edges)
    ensures !(InBin(x, edges, i) && InBin(x, edges, j))
  {
    if InBin(x, edges, i) && InBin(x, edges, j) {
      EdgesOrdered(edges, i + 1, j);
      assert false;
    }
  }

  lemma {:induction false} EdgesOrdered(edges: seq<real>, i: nat, j: nat)
    requires Increasing(edges) && i <= j < |edges|
    ensures edges[i] <= edges[j]
    decreases j - i
  {
    if i < j {
      EdgesOrdered(edges, i + 1, j);
    }
  }

  /** The bin a number between the outer edges falls in, found by a scan from bin `lo`. */
  function BinOf(x: real, edges: seq<real>, lo: nat): (r: nat)
    requires Increasing(edges) && lo < Bins(edges) && edges[lo] <= x <= edges[|edges| - 1]
    ensures lo <= r < Bins(edges) && InBin(Val(x), edges, r)
    decreases Bins(edges) - lo
  {
    if x < edges[lo + 1] || lo == Bins(edges) - 1 then lo
    else BinOf(x, edges, lo + 1)
  }

  /** A number between the outer edges, both included. */
  predicate InRange(x: Sample, edges: seq<real>) {
    x.Val? && |edges| >= 2 && edges[0] <= x.x <= edges[|edges| - 1]
  }

  /** How many elements of the flattened array lie between the outer edges. */
  function InRangeCount(arr: seq<Sample>, edges: seq<real>): nat {
    if arr == [] then 0
    else InRangeCount(arr[..|arr| - 1], edges) + (if InRange(arr[|arr| - 1], edges) then 1 else 0)
  }

  /** The sum of the counts of bins `0 .. m - 1`. */
  function CountsUpTo(arr: seq<Sample>, edges: seq<real>, m: nat): nat
    requires m <= Bins(edges)
  {
    if m == 0 then 0 else CountsUpTo(arr, edges, m - 1) + Count(arr, edges, m - 1)
  }

  /** How many of bins `0 .. m - 1` hold `x`. */
  function Hits(x: Sample, edges: seq<real>, m: nat): nat
    requires m <= Bins(edges)
  {
    if m == 0 then 0 else Hits(x, edges, m - 1) + (if InBin(x, edges, m - 1) then 1 else 0)
  }

  /** The sum of a histogram's counts. */
  function Total(h: seq<nat>): nat {
    if h == [] then 0 else Total(h[..|h| - 1]) + h[|h| - 1]
  }

  lemma {:induction false} TotalOfHistogram(arr: seq<Sample>, edges: seq<real>, m: nat)
    requires m <= Bins(edges)
    ensures Total(Histogram(arr, edges)[..m]) == CountsUpTo(arr, edges, m)
    decreases m
  {
    if m > 0 {
      TotalOfHistogram(arr, edges, m - 1);
      assert Histogram(arr, edges)[..m][..m - 1] == Histogram(arr, edges)[..m - 1];
    }
  }

  /** One more element adds to the bins that hold it. */
  lemma {:induction false} CountsStep(arr: seq<Sample>, x: Sample, edges: seq<real>, m: nat)
    requires m <= Bins(edges)
    ensures CountsUpTo(arr + [x], edges, m) == CountsUpTo(arr, edges, m) + Hits(x, edges, m)
    decreases m
  {
    if m > 0 {
      CountsStep(arr, x, edges, m - 1);
      assert (arr + [x])[..|arr + [x]| - 1] == arr;
    }
  }

  /** A number in a bin lies between the outer edges. */
  lemma InBinInRange(x: Sample, edges: seq<real>, i: nat)
    requires Increasing(edges) && i < Bins(edges) && InBin(x, edges, i)
    ensures InRange(x, edges)
  {
    EdgesOrdered(edges, 0, i);
    EdgesOrdered(edges, i + 1, |edges| - 1);
  }

  /** A number is in exactly one bin if it lies between the outer edges, and else in none. */
  lemma {:induction false} HitsOnce(x: Sample, edges: seq<real>, m: nat)
    requires Increasing(edges) && m <= Bins(edges)
    ensures Hits(x, edges, m) == (if InRange(x, edges) && BinOf(x.x, edges, 0) < m then 1 else 0)
    decreases m
  {
    if m > 0 {
      HitsOnce(x, edges, m - 1);
      if InBin(x, edges, m - 1) {
        InBinInRange(x, edges, m - 1);
        var r := BinOf(x.x, edges, 0);
        if r < m - 1 {
          BinsDisjoint(x, edges, r, m - 1);
        } else if r > m - 1 {
          BinsDisjoint(x, edges, m - 1, r);
        }
      }
    }
  }

  /** The histogram counts every number between the outer edges exactly once; NaN and numbers
      outside the edges are not counted. */
  lemma {:induction false} HistogramTotal(arr: seq<Sample>, edges: seq<real>)
    requires Increasing(edges)
    ensures Total(Histogram(arr, edges)) == InRangeCount(arr, edges)
    decreases |arr|
  {
    var m := Bins(edges);
    TotalOfHistogram(arr, edges, m);
    assert Histogram(arr, edges)[..m] == Histogram(arr, edges);
    CountedInRange(arr, edges);
  }

  lemma {:induction false} CountedInRange(arr: seq<Sample>, edges: seq<real>)
    requires Increasing(edges)
    ensures CountsUpTo(arr, edges, Bins(edges)) == InRangeCount(arr, edges)
    decreases |arr|
  {
    var m := Bins(edges);
    if arr == [] {
      EmptyCounts(edges, m);
    } else {
      var init, x := arr[..|arr| - 1], arr[|arr| - 1];
      CountedInRange(init, edges);
      assert init + [x] == arr;
      CountsStep(init, x, edges, m);
      HitsOnce(x, edges, m);
    }
  }

  lemma {:induction false} EmptyCounts(edges: seq<real>, m: nat)
    requires m <= Bins(edges)
    ensures CountsUpTo([], edges, m) == 0
    decreases m
  {
    if m > 0 {
      EmptyCounts(edges, m - 1);
    }
  }

  /** `hist += other` on the buffer the generator yields. */
  method AddInto(hist: array<nat>, other: seq<nat>)
    requires hist.Length == |other|
    modifies hist
    ensures hist[..] == AddCounts(old(hist[..]), other)
  {
    for i := 0 to hist.Length
      invariant forall j :: 0 <= j < i ==> hist[j] == old(hist[j]) + other[j]
      invariant forall j :: i <= j < hist.Length ==> hist[j] == old(hist[j])
    {
      hist[i] := hist[i] + other[i];
    }
  }

  /** The body of `ihistogram` as the loop it is, over a stream whose first array exists: the
      first histogram is a fresh buffer `buf`, every later one is added into it, and
      `snapshots[k]` is its content at yield `k`. */
  method IHistogramLoop(arrays: seq<seq<Sample>>, edges: seq<real>) returns (buf: array?<nat>, snapshots: seq<seq<nat>>, raised: Option<Exception>)
    requires arrays != []
    ensures IHistogram(arrays, edges) == Ok(Run(snapshots, raised))
    ensures snapshots != [] ==> buf != null && fresh(buf) && buf[..] == snapshots[|snapshots| - 1]
  {
    if !Increasing(edges) {
      return null, [], Some(Exception(ValueError, BinsNotIncreasing));
    }
    var first := Histogram(arrays[0], edges);
    var b := new nat[|first|](j requires 0 <= j < |first| => first[j]);
    assert b[..] == first;
    buf, snapshots, raised := b, [b[..]], None;
    for i := 1 to |arrays|
      invariant |snapshots| == i && snapshots[i - 1] == b[..]
      invariant forall k :: 0 <= k < i ==> snapshots[k] == Accumulated(arrays, edges, k + 1)
    {
      AddInto(b, Histogram(arrays[i], edges));
      snapshots := snapshots + [b[..]];
    }
    assert snapshots == IHistogram(arrays, edges).value.outputs;
  }
}
