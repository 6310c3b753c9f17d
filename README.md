# npstreams in Dafny

A model of the core of **npstreams**, a Python library of streaming NumPy operations.
The library consumes an iterable of arrays one array at a time and keeps a bounded amount of state.
The model covers these parts:

- the reduction engine `ireduce_ufunc` and its new-axis, existing-axis and all-axes modes, with `reduce_ufunc` and `preduce_ufunc` on top;
- the stream normaliser `ArrayStream` and the `array_stream` decorator, plus its older twin in `_utils.py`;
- NaN replacement, `nan_to_num`;
- the iterator utilities `primed`, `chunked`, `peek`, `itercopy`, `last`, `cyclic` and `length_hint`;
- the sequential semantics of `preduce`, `pmap` and `pmap_unordered`;
- the online statistics: weighted mean, variance, standard deviation, standard error and histogram;
- the older accumulators `isum`, `iprod`, `inansum` and `inanprod`;
- the cumulative products `idot` and `itensordot`;
- `stack`;
- the function pipeline `_pipe`/`ipipe`.

Conventions of the model:

- **Arrays.** An `NdArrays.Array` has a shape, a dtype tag and a rectangular nested `Tensor` of elements. An element is an integer `Num(n)` or `NaN`. A dtype is a tag only: casts keep element values.
- **Generators.** A drained generator is a `Run(outputs, raised)`: the values it yielded, in order, and the exception that ended it.
  - A function that does work at call time returns `Result<Run<T>>`, where `Err` means the call itself raised. This covers functions decorated with `primed`, and those decorated with `array_stream`, whose `ArrayStream` peeks at construction.
  - Under PEP 479, a `next()` that fails inside a generator frame surfaces as `RuntimeError` (`StoppedInsideGenerator`).
- **State.** Code that updates a buffer in place is modelled as a method over a Dafny `array`, proved equal to the specification function. This covers the new-axis accumulator (`out=accumulator`), `isum`/`iprod`'s `+=`/`*=`, `idot`'s `accumulator[:] =`, `ihistogram`'s `hist +=` and `nan_to_num`'s `copyto`. Loops that rebind a variable become methods with `while` loops. `ArrayStream` is a class whose `Next` drains its pending items.
- **Statistics.** Statistics are modelled per element lane over `real`. A `Sample` is `Val(x)` or `NaN`. A division by zero gives `NaN`, which stands for NumPy's `inf`/`nan`. The square root is a parameter `root` that is only assumed to invert squaring on non-negative reals.
- **`isum` inside `stats.py`.** `stats.py` calls `isum(..., axis=, ignore_nan=, dtype=)` (npstreams/stats.py:25,43,45). The `isum` in `numerics.py` takes neither of the first two keywords and yields one value fewer than its input has arrays. The statistics therefore take the call to be the reduction engine with addition, which yields one running sum per input. `numerics.py`'s own `isum` is modelled as written, yielding n−1 values (`Numerics.AccumulateYields`).
- **Existing-axis mode.** A stream of one array makes existing-axis mode yield once and then raise `RuntimeError`, because the `next` at npstreams/reduce.py:342 is unguarded. This is modelled as written (`Reduce.ExistingAxisSingleArray`). Without `ntotal`, `preduce_ufunc` hands each worker a chunk of one array. So along an existing axis, every multi-process call that gets past the first reduction raises this error (`Reduce.PReduceExistingAxisRaises`).
- **Reorderable ufuncs.** NumPy refuses `ufunc.reduce(array, axis=None)` with ValueError when the ufunc is not reorderable (`np.subtract`, for example) and the array has rank 2 or more. The all-axes mode calls it at npstreams/reduce.py:381 and 385, so the model raises there too (`Reduce.ReduceAllAxes`).
- **Default `ddof`.** `sem` defaults to `ddof=0` and `isem` to `ddof=1`. In the model `ddof` is always an explicit argument.

## Model

| member | source | states |
|---|---|---|
| Seqs.FlattenAppend | npstreams/iter_utils.py:58-61 | chaining one more chunk appends it at the end |
| Seqs.FlattenConcat | npstreams/iter_utils.py:58-61 | chaining two lists of chunks is chaining each list, one after the other |
| Seqs.ReduceConcat | npstreams/parallel.py:62-64 | for an associative `f`, reducing `a + b` is `f(reduce(a), reduce(b))` |
| Seqs.ReduceFlatten | npstreams/parallel.py:62-64 | for an associative `f`, the fold of the chunk folds equals the fold of the whole input |
| Seqs.MultisetRemove | npstreams/parallel.py:177 | removing a position removes exactly one occurrence of its item |
| Seqs.MapRemove | npstreams/parallel.py:177 | mapping commutes with removing a position |
| Seqs.MultisetDropMatch | npstreams/parallel.py:177 | dropping the first item of one sequence and a matching item of its reordering leaves two reorderings of each other |
| Seqs.MultisetCancel | npstreams/parallel.py:177 | equal multisets stay equal after the same items are removed from both |
| Seqs.MapMultisetRemove | npstreams/parallel.py:177 | mapping after removing a position loses exactly `f` of that item |
| Seqs.MapMultiset | npstreams/parallel.py:177 | a reordering of the inputs maps to a reordering of the outputs |
| NdArrays.RemoveAxis | npstreams/reduce.py:335 | reducing along an axis removes exactly that axis from the shape |
| NdArrays.RavelLength | npstreams/stacking.py:46 | the row-major element list of a well-shaped array has `prod(shape)` elements |
| NdArrays.FlattenUniformLength | npstreams/stacking.py:46 | `k` rows of `w` elements each hold `k * w` elements |
| NdArrays.Full | npstreams/reduce.py:289-294 | `np.full(s, v)` has shape `s` and every element equals `v` |
| NdArrays.FlattenAllEqual | npstreams/reduce.py:289-294 | rows whose elements all equal `v` chain into elements that all equal `v` |
| NdArrays.MapValuesShape | npstreams/reduce.py:120 | an element-wise map keeps the shape and maps each element of the ravelled array |
| NdArrays.MapFlatten | npstreams/reduce.py:120 | mapping each row and chaining is chaining and then mapping |
| NdArrays.Zip | npstreams/reduce.py:297 | `ufunc(a, b)` on arrays of shape `s` has shape `s` |
| NdArrays.RavelZip | npstreams/reduce.py:297 | element i of `ufunc(a, b)` in row-major order is `f` of element i of each operand |
| NdArrays.ZipFlatten | npstreams/reduce.py:297 | combining rows pairwise and chaining equals chaining and combining |
| NdArrays.FoldZip | npstreams/reduce.py:296-298 | the element-wise fold of arrays of shape `s` has shape `s` |
| NdArrays.ZipAssociative | npstreams/reduce.py:241-255 | element-wise combination is associative whenever the element operation is |
| NdArrays.FoldZipConcat | npstreams/reduce.py:241-255 | for an associative operation, the fold of `a + b` combines the folds of `a` and `b` |
| NdArrays.FoldZipGroups | npstreams/reduce.py:241-255 | for an associative operation, folding concatenated groups is folding the group folds |
| NdArrays.FoldZipItems | npstreams/reduce.py:296-298 | the fold is computed one sub-array at a time along the first axis |
| NdArrays.ReduceStackLast | npstreams/reduce.py:258-298 | reducing `np.stack(ts, -1)` along its last axis is the element-wise fold of `ts` |
| NdArrays.RavelFoldZip | npstreams/reduce.py:296-298 | element i of the element-wise fold is the fold of lane i |
| NdArrays.ReduceAxis | npstreams/reduce.py:335 | `ufunc.reduce(t, axis=ax)` has the shape of `t` without axis `ax` |
| NdArrays.ReduceAll | npstreams/reduce.py:381-386 | folding every element of `t` with the ufunc's operation fails with ValueError exactly for an empty array and no identity, and gives the identity on an empty array (the check on reorderability is `Reduce.ReduceAllAxes`) |
| NdArrays.StackLast | npstreams/array_stream.py:49-54 | `np.stack(ts, -1)` has shape `(*s, len(ts))` |
| NdArrays.Column | npstreams/reduce.py:296-298 | sub-array i of each array has shape `s[1:]` |
| NdArrays.DimOf | npstreams/reduce.py:296-298 | a well-shaped array of positive rank is `s[0]` sub-arrays of shape `s[1:]` |
| NdArrays.SliceLast | npstreams/array_stream.py:49-54 | `t[..., j]` has the leading shape `s` |
| NdArrays.SliceOfStack | npstreams/array_stream.py:49-54 | slice j of `np.stack(ts, -1)` is `ts[j]` |
| NdArrays.Concatenate | npstreams/stacking.py:46 | `np.concatenate([a, b], ax)` has size `sa[ax] + sb[ax]` along `ax` and the common size elsewhere |
| NdArrays.ConcatenateOntoStack | npstreams/reduce.py:348-353 | concatenating `x[..., None]` onto `np.stack(ts, -1)` is `np.stack(ts + [x], -1)` |
| NdArrays.Stack | npstreams/array_stream.py:49-54 | `np.stack(xs, -1)` raises ValueError exactly for an empty list or unequal shapes; otherwise its shape is `(*s, n)` with the first array's dtype |
| NdArrays.StackSlices | npstreams/array_stream.py:49-54 | every slice along the new axis gives back the stacked array |
| NdArrays.AtLeast1d | npstreams/reduce.py:335 | `np.atleast_1d` keeps the elements and dtype, turns a 0-d array into shape `(1,)`, and returns other arrays unchanged |
| NdArrays.CopyInto | npstreams/reduce.py:291-292 | `out[:] = first` leaves `out` holding exactly the elements of `first` |
| NdArrays.ZipInPlace | npstreams/reduce.py:297 | `ufunc(acc, b, out=acc)` leaves each element of `acc` combined with the matching element of `b` |
| Wrappers.PrependAllStep | npstreams/reduce.py:348-353 | moving one yielded value into the prefix already yielded leaves the run unchanged |
| IterUtils.Primed | npstreams/iter_utils.py:11-24 | the primed call raises exactly when the unprimed generator stops before its first yield, and with its exception; otherwise the consumer sees the unprimed run without its first value |
| IterUtils.ChunksFlatten | npstreams/iter_utils.py:56-61 | the chunks chained back together are the input |
| IterUtils.ChunksSizes | npstreams/iter_utils.py:56-61 | every chunk has `chunksize` items except the last, which is non-empty and no longer |
| IterUtils.ChunksMember | npstreams/iter_utils.py:56-61 | every item of every chunk is an item of the input |
| IterUtils.Chunked | npstreams/iter_utils.py:27-61 | a non-int chunk size raises TypeError at call time; for `chunksize >= 1` the chunks chain back into the input |
| IterUtils.ChunksFrom | npstreams/iter_utils.py:58-61 | each `islice` round takes the next `n` items, and the rest is chunked the same way |
| IterUtils.ChunkedLoop | npstreams/iter_utils.py:56-61 | the `while next_chunk` loop yields exactly the chunks of the specification |
| IterUtils.Peek | npstreams/iter_utils.py:64-81 | an empty input raises StopIteration; otherwise the first item and a stream still holding every item |
| IterUtils.IterCopy | npstreams/iter_utils.py:84-117 | `copies` iterators, each over the whole input; a negative count raises |
| IterUtils.Last | npstreams/iter_utils.py:201-211 | the last yielded value; an empty stream raises RuntimeError and a failing stream re-raises its exception |
| IterUtils.PyIndex | npstreams/iter_utils.py:226 | `t[k]` for `-n <= k < n` reads position `k mod n` |
| IterUtils.Cyclic | npstreams/iter_utils.py:214-226 | `n` tuples of length `n`, and tuple j has `out[i] = in[(i - j) mod n]` |
| IterUtils.CyclicRotation | npstreams/iter_utils.py:224-226 | tuple j is the input rotated right by j places |
| IterUtils.LengthHintOf | npstreams/iter_utils.py:229-269 | `len` for a sized object; otherwise the hint, or `default` when the hint is missing, raises TypeError or is NotImplemented; TypeError for a non-int hint and ValueError for a negative one |
| ArrayUtils.NanToNumValues | npstreams/array_utils.py:40-51 | an inexact array gets `fill` exactly where it had NaN; other arrays are unchanged |
| ArrayUtils.CopyToWhereNaN | npstreams/array_utils.py:47-50 | `copyto(d, fill, where=isnan(d))` over a whole array, or over its real or imaginary part, replaces exactly the NaNs of that view |
| ArrayUtils.NanToNum | npstreams/array_utils.py:9-51 | with `copy` a fresh array and the caller's untouched; without it the caller's array rewritten in place; either way the contents are `NanToNumValues` |
| ArrayUtils.NanToNumRemovesNaN | npstreams/array_utils.py:49-50 | no NaN is left in an inexact array unless `fill` is NaN |
| ArrayUtils.NanToNumArray | npstreams/array_utils.py:9-51 | the replacement keeps shape and dtype and acts element by element |
| ArrayStreams.CastAllTail | npstreams/array_stream.py:63-65 | converting a stream converts its first array and then the rest |
| ArrayStreams.StreamItems | npstreams/array_stream.py:24-35 | a bare array becomes a one-array stream; an iterable raises exactly when its length hint raises or it is empty (StopIteration); otherwise its arrays, cast to the first one's dtype |
| ArrayStreams.ArrayStream.Init | npstreams/array_stream.py:24-35 | the stream holds the given items, dtype and length hint |
| ArrayStreams.ArrayStream.Create | npstreams/array_stream.py:24-35 | construction fails exactly as `StreamItems` does; otherwise a fresh stream with those items |
| ArrayStreams.ArrayStream.Next | npstreams/array_stream.py:63-65 | `__next__` returns the next pending array and drops it, or reports exhaustion; dtype and hint unchanged |
| ArrayStreams.ArrayStream.ToArray | npstreams/array_stream.py:49-54 | `__array__` drains the stream and returns `np.stack` of its arrays along a new last axis |
| ArrayStreams.Decorate | npstreams/array_stream.py:68-88 | an `ArrayStream` argument passes through unchanged; anything else is wrapped once |
| LegacyStreams.LegacyAgreesUpToDtype | npstreams/_utils.py:12-15 | when `ArrayStream` accepts a source, both decorators give the same arrays up to dtype; on an empty iterable only the legacy one succeeds |
| Reduce.CheckBinaryUfunc | npstreams/reduce.py:18-57 | TypeError exactly for a non-ufunc; ValueError for a ufunc that does not take two inputs or whose every type signature returns booleans; no error otherwise |
| Reduce.Prologue | npstreams/reduce.py:109-118 | the ufunc check first, then ValueError for `ignore_nan` with a ufunc without identity |
| Reduce.IReduceUfunc | npstreams/reduce.py:60-142 | the call raises exactly when the stream wrapper or the configuration checks fail, before any array is pulled |
| Reduce.IReduceStream | npstreams/reduce.py:109-142 | on a normalised stream the call fails exactly with the configuration error |
| Reduce.IgnoreNanNoNaN | npstreams/reduce.py:112-119 | with a number as fill value, `nan_to_num` leaves no NaN in any array of the stream: inexact arrays are cleaned, arrays of other types pass through unchanged |
| Reduce.NewAxisNoNaN | npstreams/reduce.py:258-298 | along a new axis, NaN-free arrays and an operation that keeps numbers give only NaN-free yields |
| Reduce.ReducedNoNaN | npstreams/reduce.py:335-337 | the local reduction of a NaN-free array along an existing axis is NaN-free |
| Reduce.StackFromNoNaN | npstreams/reduce.py:340-353 | stacking and concatenating NaN-free reductions gives only NaN-free accumulators |
| Reduce.ExistingAxisNoNaN | npstreams/reduce.py:301-353 | along an existing axis, NaN-free arrays give only NaN-free yields |
| Reduce.ReduceAllNumber | npstreams/reduce.py:379-385 | `ufunc.reduce(array, axis=None)` of a NaN-free array is a number, the identity (a number) included |
| Reduce.AllAxesFromNoNaN | npstreams/reduce.py:379-386 | every accumulator of the all-axes loop, started from a number, is a number |
| Reduce.AllAxesNoNaN | npstreams/reduce.py:356-386 | over all axes, NaN-free arrays give only NaN-free yields |
| Reduce.DispatchNoNaN | npstreams/reduce.py:125-142 | whichever mode the axis selects (the restart with axis -1 included), NaN-free arrays give only NaN-free yields |
| Reduce.IReduceIgnoreNanNoNaN | npstreams/reduce.py:112-142 | with `ignore_nan`, a ufunc whose identity is a number and an operation that keeps numbers, no yield holds NaN, for every axis |
| Reduce.DispatchRule | npstreams/reduce.py:127-142 | `None` selects all-axes mode; -1 and any axis at or beyond the rank select new-axis mode; other integers select existing-axis mode |
| Reduce.ShapedPrefix | npstreams/reduce.py:296-298 | the leading arrays with shape `s`, up to the first one with another shape |
| Reduce.Accumulated | npstreams/reduce.py:289-298 | the fold of the first `n` arrays has shape `s` |
| Reduce.AccumulatedStep | npstreams/reduce.py:297 | one more array combines the running fold with it element by element |
| Reduce.NewAxisMeaning | npstreams/reduce.py:258-298 | over arrays of one shape, new-axis mode yields once per input, the first yield is the first array, and yield k is the ufunc reduction of the first k+1 arrays stacked on a new last axis, of the `out` buffer's type, else `dtype`, else the first array's type |
| Reduce.NewAxisYield | npstreams/reduce.py:280-298 | yield k has the first array's shape, the `out` buffer's type (else `dtype`, else the first array's type), and is that stacked reduction |
| Reduce.NewAxisSteps | npstreams/reduce.py:296-298 | each yield after the first is the previous one combined with the next input |
| Reduce.Snapshots | npstreams/reduce.py:296-298 | one buffer snapshot per yield |
| Reduce.SnapshotsFirst | npstreams/reduce.py:289-294 | the first snapshot is the first array's elements |
| Reduce.SnapshotsStep | npstreams/reduce.py:296-298 | each snapshot is the previous one combined with the next array |
| Reduce.NewAxisRunSnapshots | npstreams/reduce.py:289-298 | the yields are exactly the snapshots of the shaped prefix, then ValueError at the first array of another shape |
| Reduce.NewAxisLoop | npstreams/reduce.py:258-298 | the in-place loop yields the specified values; the buffer is the caller's `out` or a fresh copy, and it ends holding the last yield |
| Reduce.FoldInPlace | npstreams/reduce.py:296-298 | updating the buffer with `out=accumulator` gives the snapshots, raising ValueError at a shape mismatch |
| Reduce.Reduced | npstreams/reduce.py:321-335 | axis reduction of one array raises exactly for an axis outside `range(ndim)` or an empty axis without identity; the result has the shape without that axis, or `(1,)` after `atleast_1d` |
| Reduce.ExistingAxisRun | npstreams/reduce.py:301-353 | existing-axis mode yields at most once per input |
| Reduce.StackRun | npstreams/reduce.py:337-353 | the stacking loop yields at most once per reduced array |
| Reduce.StackFrom | npstreams/reduce.py:348-353 | the loop resumed after `rs` yields at most once per remaining array |
| Reduce.ValuesStep | npstreams/reduce.py:348-353 | one more successful reduction appends its value |
| Reduce.StackFromStacks | npstreams/reduce.py:348-353 | every yield of the resumed loop is the stack of the reductions so far |
| Reduce.StacksAfterCons | npstreams/reduce.py:348-353 | a stack yield followed by stack yields is a run of stack yields |
| Reduce.StackRunStacks | npstreams/reduce.py:337-353 | yield k has shape `(*r.shape, k+1)` and slice j is reduction j |
| Reduce.ExistingAxisStacks | npstreams/reduce.py:301-353 | yield k of existing-axis mode is the stack of the first k+1 local reductions along a new last axis |
| Reduce.ExistingAxisSingleArray | npstreams/reduce.py:337-344 | a one-array stream yields its reduction once and then raises RuntimeError, so `reduce_ufunc` raises too |
| Reduce.StackFromStops | npstreams/reduce.py:342-353 | the loop ends at the end of the stream, at a failing reduction, or at a shape change |
| Reduce.StackFromStep | npstreams/reduce.py:348-353 | a reduction of the same shape is yielded as the grown stack, and the loop continues |
| Reduce.AppendAlongLast | npstreams/reduce.py:351 | the concatenation gains one slice along the last axis |
| Reduce.ConcatenateGrowsStack | npstreams/reduce.py:351 | concatenating onto the stack of `rs` gives the stack of `rs + [x]` |
| Reduce.ExistingAxisOpening | npstreams/reduce.py:335-338 | the first yield is the first local reduction made at least 1-d; the run goes on from the stack of that one reduction |
| Reduce.ExistingAxisSecond | npstreams/reduce.py:342-344 | the second array ends the run (one array), raises (bad reduction or shape), or starts the stack of two |
| Reduce.ExistingAxisLoop | npstreams/reduce.py:301-353 | the rebinding loop yields exactly `ExistingAxisRun` |
| Reduce.StackFromSecond | npstreams/reduce.py:342-353 | the run after the first yield is the loop from the second array |
| Reduce.GrowStack | npstreams/reduce.py:348-353 | the `for` loop over the rest of the stream yields exactly `StackFrom` |
| Reduce.ElementsOfStep | npstreams/reduce.py:384-385 | the elements seen after one more array are the earlier ones followed by its elements |
| Reduce.AllAxesStep | npstreams/reduce.py:384-385 | for an associative ufunc, reducing the accumulator with the next array's total reduces all elements seen so far |
| Reduce.ElementsOfNonEmpty | npstreams/reduce.py:381-386 | arrays with elements give a non-empty element list |
| Reduce.FoldsComposeHolds | npstreams/reduce.py:384-385 | the folds compose at every step |
| Reduce.AllAxesFromTotal | npstreams/reduce.py:383-386 | every yield of the resumed loop is the total reduction of the elements so far |
| Reduce.AllAxesFromFoldsCons | npstreams/reduce.py:383-386 | a total yield followed by total yields is a run of totals |
| Reduce.AllAxesTotal | npstreams/reduce.py:356-386 | for an associative ufunc that is reorderable or arrays of rank at most 1, all-axes mode yields one 0-d array per input: yield k is the ufunc reduction of every element of the first k+1 arrays |
| Reduce.ReduceAllAxes | npstreams/reduce.py:379-385 | `ufunc.reduce(array, axis=None)` raises ValueError exactly for a ufunc that is not reorderable on an array of rank 2 or more, or an empty array and no identity; otherwise it folds every element |
| Reduce.AllAxesNotReorderable | npstreams/reduce.py:379-385 | a ufunc that is not reorderable stops the all-axes run at the first array of rank 2 or more with ValueError, after one yield per earlier array |
| Reduce.AllAxesFromNotReorderable | npstreams/reduce.py:383-385 | the resumed loop yields once per array before the first array of rank 2 or more and then raises ValueError there |
| Reduce.PrependFolds | npstreams/reduce.py:383-386 | a total yield put in front of a run of totals is a run of totals |
| Reduce.AllAxesLoop | npstreams/reduce.py:356-386 | the rebinding loop yields exactly `AllAxesRun` |
| Reduce.AllAxesFromStep | npstreams/reduce.py:383-386 | the loop ends at the end of the stream, raises at a failing reduction, or yields and continues |
| Reduce.ReduceUfunc | npstreams/reduce.py:145-194 | `reduce_ufunc` is the last yield of a generator that ends without raising; in every other case it raises |
| Reduce.ReduceChunks | npstreams/reduce.py:250-255 | one reduced array per chunk, each `reduce_ufunc` of that chunk |
| Reduce.PReduceUfunc | npstreams/reduce.py:197-255 | stream errors raise at call time, and `processes == 1` is exactly `reduce_ufunc` |
| Reduce.PReduceUfuncAssociative | npstreams/reduce.py:241-255 | for an associative ufunc, along a new axis over arrays of one shape or over all axes of non-empty arrays it may reduce, `preduce_ufunc` with any valid pool equals `reduce_ufunc` |
| Reduce.PReduceExistingAxisRaises | npstreams/reduce.py:250-255 | along an existing axis and without `ntotal`, the first one-array chunk raises RuntimeError, so the multi-process call raises |
| Reduce.PReduceNewAxis | npstreams/reduce.py:250-255 | along a new axis, reducing the chunk results gives what reducing all the arrays gives |
| Reduce.PReduceAllAxes | npstreams/reduce.py:250-255 | over all axes, reducing the chunk results gives what reducing all the arrays gives |
| Reduce.NewAxisReduceUfunc | npstreams/reduce.py:145-194 | `reduce_ufunc` along a new axis over arrays of one shape and type is their element-wise fold, of type `dtype` or else theirs |
| Reduce.AllAxesReduceUfunc | npstreams/reduce.py:145-194 | `reduce_ufunc` over all axes, for an associative ufunc, is the fold of every element of every array as a 0-d array |
| Reduce.ReduceChunksAll | npstreams/reduce.py:254 | when each chunk reduces to a given array, the workers' results are exactly those arrays, in chunk order |
| Reduce.NewAxisChunkResults | npstreams/reduce.py:254 | along a new axis, each worker's result is the element-wise fold of its chunk |
| Reduce.AllAxesChunkResults | npstreams/reduce.py:254 | over all axes, each worker's result is the fold of its chunk's elements |
| Reduce.NewAxisOfChunkFolds | npstreams/reduce.py:255 | along a new axis, reducing the chunk folds is folding all the arrays of all the chunks |
| Reduce.AllAxesOfChunkTotals | npstreams/reduce.py:255 | over all axes, reducing the chunk totals is folding all the elements of all the chunks |
| Reduce.ReduceStreamItems | npstreams/reduce.py:190-194 | reducing the normalised stream gives what reducing the original source gives |
| Parallel.ReduceOrError | npstreams/parallel.py:52-53 | `functools.reduce` without an initializer raises TypeError exactly on an empty iterable, and returns a single item as is |
| Parallel.PoolSize | npstreams/parallel.py:55 | `Pool(processes)` starts `processes` workers, or the CPU count for `None`, and raises for fewer than one |
| Parallel.TruncDiv | npstreams/parallel.py:58 | `int(n / p)` is floor division for `n >= 0` and never positive for `n < 0` |
| Parallel.ChunkSize | npstreams/parallel.py:56-60 | at least 1; `max(1, len // p)` for a sized iterable; 1 without a length or `ntotal` |
| Parallel.PReduce | npstreams/parallel.py:13-64 | `processes == 1` is exactly `reduce(partial(func, *args), iterable)` |
| Parallel.PReduceAssociative | npstreams/parallel.py:55-64 | for an associative function, the fold of in-order chunk folds equals the plain reduction |
| Parallel.PMap | npstreams/parallel.py:66-120 | `processes == 1` is `map`; otherwise `imap` yields the mapped items in order, or the pool raises |
| Parallel.PMapUnordered | npstreams/parallel.py:122-177 | `processes == 1` is `map`; otherwise a reordering of the mapped items, or the pool raises |
| Parallel.PickedIsPermutation | npstreams/parallel.py:177 | taking the items in a permuted index order keeps the multiset of items |
| Numerics.AccumulateIsNewAxisTail | npstreams/numerics.py:18-46 | `isum`/`iprod` yield the running folds of the new-axis engine without its first yield |
| Numerics.AccumulateYields | npstreams/numerics.py:39-46 | over n arrays of one shape, n−1 yields and no exception; yield k is the fold of the first k+2 arrays |
| Numerics.AccumulateElement | npstreams/numerics.py:44-46 | element i of yield k is the fold of element i of the first k+2 arrays |
| Numerics.ReduceAdd | npstreams/numerics.py:45 | summing numbers gives their integer sum, and any NaN makes the sum NaN |
| Numerics.ISumElements | npstreams/numerics.py:18-46 | element i of `isum`'s yield k is the sum of element i of the first k+2 arrays |
| NdArrays.ReduceKeepsNumbers | npstreams/numerics.py:44-46 | folding a NaN-free operation over numbers gives a number |
| Numerics.AccumulateNoNaN | npstreams/numerics.py:44-46 | accumulating NaN-free arrays yields NaN-free arrays |
| Numerics.OutputNoNaN | npstreams/numerics.py:44-46 | each single yield of accumulating NaN-free arrays is NaN-free |
| NdArrays.FoldNoNaN | npstreams/numerics.py:44-46 | the element-wise fold of NaN-free arrays with a NaN-free operation is NaN-free |
| NdArrays.StackLastNoNaN | npstreams/reduce.py:343 | `np.stack(..., axis=-1)` of NaN-free arrays is NaN-free |
| NdArrays.ReduceAxisNoNaN | npstreams/reduce.py:335-337 | `ufunc.reduce` along an axis of a NaN-free array, with an operation that keeps numbers and a number (or no) identity, is NaN-free |
| Numerics.AccumulateLoop | npstreams/numerics.py:37-46 | the in-place loop on a fresh copy of the first array yields exactly the specified values and ends holding the last one |
| Numerics.ZeroNaN | npstreams/numerics.py:67 | `np.nan_to_num` keeps shape and dtype and turns NaN into 0 in an inexact array |
| Numerics.INanSumNoNaN | npstreams/numerics.py:48-68 | `inansum` never yields NaN when only inexact arrays hold NaN |
| Numerics.NanToNumCopy | npstreams/numerics.py:11-16 | `_nan_to_num` returns a fresh copy with NaN replaced by `fill` and leaves its input alone |
| Numerics.FilledNaN | npstreams/numerics.py:11-16 | `_nan_to_num` keeps shape and dtype and replaces every NaN by `fill` |
| Numerics.INanProdNoNaN | npstreams/numerics.py:100-119 | `inanprod` never yields NaN |
| Linalg.Dot | npstreams/linalg.py:33 | `np.dot` of two matrices raises ValueError exactly when the inner sizes differ; otherwise the product, with the outer sizes |
| Linalg.InnerOfProduct | npstreams/linalg.py:39 | a row of `ab` against a column of `c` splits into the triple sums |
| Linalg.MixedFull | npstreams/linalg.py:39 | the triple sums regroup into a row of `a` against a column of `bc` |
| Linalg.DotAssociative | npstreams/linalg.py:26-27 | `(ab)c == a(bc)` |
| Linalg.MultiDot | npstreams/linalg.py:26-27 | the left-to-right chained product has the outer sizes of the chain |
| Linalg.MultiDotRight | npstreams/linalg.py:26-27 | the right-to-left chained product has the outer sizes of the chain |
| Linalg.MultiDotOrder | npstreams/linalg.py:26-27 | both evaluation orders of a chain agree |
| Linalg.Assign | npstreams/linalg.py:39 | `acc[:] = x` succeeds exactly when `x` broadcasts to the buffer's size, which it keeps; ValueError otherwise |
| Linalg.AssignExact | npstreams/linalg.py:39 | assigning a matrix of the buffer's size stores that matrix |
| Linalg.IDot | npstreams/linalg.py:10-40 | an empty stream raises StopIteration at call time; otherwise the drained generator |
| Linalg.SquaresChained | npstreams/linalg.py:36-40 | square matrices of one size chain in every prefix |
| Linalg.IDotFromSquares | npstreams/linalg.py:36-40 | resumed after m matrices, the loop yields the chained product of each longer prefix |
| Linalg.IDotSquares | npstreams/linalg.py:29-40 | over n-by-n matrices, `idot` yields n−1 times without raising, and yield k is the chained product of the first k+2 matrices |
| Linalg.IDotLast | npstreams/linalg.py:29-40 | the last yield equals `multi_dot` in either evaluation order |
| Linalg.Contents | npstreams/linalg.py:39 | the buffer read as a matrix |
| Linalg.AssignInto | npstreams/linalg.py:39 | writing the buffer entry by entry performs `acc[:] = x` |
| Linalg.IDotLoop | npstreams/linalg.py:29-40 | the loop over one buffer yields exactly `IDotRun`, and the buffer ends holding the last yield |
| Linalg.TensorDot | npstreams/linalg.py:69 | `tensordot(a, b, axes=2)` on matrices raises ValueError exactly for different shapes |
| Linalg.TensorDotSymmetric | npstreams/linalg.py:69 | the contraction does not depend on operand order |
| Linalg.TensorDotSelf | npstreams/linalg.py:69 | a matrix contracted with itself is never negative |
| Linalg.ITensorDotRun | npstreams/linalg.py:65-75 | at most one yield, the contraction of the first two matrices; one matrix raises RuntimeError; a third matrix raises |
| Linalg.ITensorDot | npstreams/linalg.py:42-75 | an empty stream raises StopIteration at call time; otherwise the drained generator |
| Stacking.NormalizeAxis | npstreams/stacking.py:46 | an axis is valid exactly in `[-ndim, ndim)` and negative axes count from the end |
| Stacking.ConcatPair | npstreams/stacking.py:46 | concatenation succeeds exactly for a non-0-d accumulator, a valid axis and equal ranks and sizes off the axis, where the sizes along the axis add; ValueError otherwise |
| Stacking.StackLoop | npstreams/stacking.py:41-48 | the rebinding loop returns the running concatenation |
| Stacking.ConcatAllStops | npstreams/stacking.py:45-46 | once a prefix fails, the whole loop fails with that exception |
| Stacking.ConcatAllShape | npstreams/stacking.py:41-48 | the loop succeeds exactly for a concatenable stream; its size along the axis is the sum of the inputs' sizes |
| Stacking.RavelConcatenateFirst | npstreams/stacking.py:46 | along axis 0 the elements of `b` follow those of `a` |
| Stacking.ConcatAllFirstAxis | npstreams/stacking.py:41-48 | along axis 0 the result lists the elements of every array in stream order |
| Stacking.StackNewAxis | npstreams/stacking.py:34-35 | with `axis == -1`, arrays of shape `s` give shape `(*s, n)` and slice j is array j |
| Stacking.StackSingle | npstreams/stacking.py:34-48 | one array with `axis == -1` gains a trailing axis of length 1; with another axis it is returned as is |
| Flow.PipeLoop | npstreams/flow.py:102-105 | the loop applies the functions in listed order |
| Flow.PipeAppend | npstreams/flow.py:103-104 | the last function listed is applied last |
| Flow.PipeReversed | npstreams/flow.py:136-137 | piping through the reversed functions gives `f(g(h(x)))` |
| Flow.IPipeYields | npstreams/flow.py:108-138 | for any `processes` that starts a pool, one output per input in order, each `f(g(h(x)))` |
| Flow.IPipeIdentity | npstreams/flow.py:103-105 | with no functions `ipipe` gives the stream back |
| Flow.IPipeEmpty | npstreams/flow.py:136 | an empty iterable raises RuntimeError when the generator first runs |
| Stats.Paired | npstreams/stats.py:48 | `zip` pairs arrays with weights up to the shorter of the two |
| Stats.IAveragePrimitives | npstreams/stats.py:15-48 | an empty stream raises StopIteration at call time; one pair of running sums per zipped input, or RuntimeError when nothing zips |
| Stats.IAverage | npstreams/stats.py:88-122 | one running average per zipped input |
| Stats.UnitWeights | npstreams/stats.py:24-26 | with unit weights the weighted sum is the plain sum and the weight total is the count |
| Stats.ShortcutIsUnitWeights | npstreams/stats.py:24-34 | the shortcut without weights gives the same primitives as all-ones weights |
| Stats.IAverageSteps | npstreams/stats.py:120-122 | yield k is the running weighted sum over the running weight total |
| Stats.AverageIsLastStep | npstreams/stats.py:85-86 | `average` is the last value of `iaverage`, and raises what `last` raises |
| Stats.MeanOfNumbers | npstreams/stats.py:124-148 | over NaN-free input the mean is the sum over the count |
| Stats.NumbersSum | npstreams/stats.py:24-26 | the sum of NaN-free values is a number |
| Stats.NumbersIgnoreNothing | npstreams/stats.py:37-39 | without NaN, `ignore_nan` changes neither sum |
| Stats.ScaledSums | npstreams/stats.py:43-46 | a constant weight scales the sum and the weight total by that weight |
| Stats.EqualWeightsStep | npstreams/stats.py:120-122 | with a constant positive weight, each running average is the running mean |
| Stats.EqualWeights | npstreams/stats.py:88-174 | a constant positive weight gives `imean` |
| Stats.IgnoreNanKeepsNumbers | npstreams/stats.py:37-46 | with `ignore_nan`, the sums run over the non-NaN values only |
| Stats.KeptStep | npstreams/stats.py:37-46 | one more input adds its term when it is a number and nothing when it is NaN |
| Stats.KeptAppend | npstreams/stats.py:43-46 | one more kept pair adds its product and its weight |
| Stats.IAverageIgnoreNan | npstreams/stats.py:37-48 | with `ignore_nan`, yield k is the kept sum over the kept weight, and NaN exactly when the kept weight is 0 |
| Stats.IgnoreNanWithoutNaN | npstreams/stats.py:37-39 | over NaN-free input `ignore_nan` makes no difference |
| Stats.IVarPrimitives | npstreams/stats.py:176-202 | an empty stream raises StopIteration at call time; one triple of running moments per zipped input, or RuntimeError when nothing zips |
| Stats.MapMoments | npstreams/stats.py:291-293 | one output per zipped input |
| Stats.MaskTwice | npstreams/stats.py:191-199 | masking already masked weights changes no sum |
| Stats.SquaresMaskAlike | npstreams/stats.py:199-200 | squares are masked exactly where their values are |
| Stats.IVarSteps | npstreams/stats.py:198-202 | yield k holds the running average, the running average of squares and the running weight |
| Stats.IVarPrimitivesAt | npstreams/stats.py:198-202 | moment triple k zips step k of the average, step k of the average of squares and the running weight |
| Stats.SquaredMaskTwice | npstreams/stats.py:199 | masking twice does not change the sum of squares |
| Stats.VarIsLastIVar | npstreams/stats.py:204-248 | `var` is the last value of `ivar` |
| Stats.SemIsLastISem | npstreams/stats.py:376-414 | `sem` is the last value of `isem` |
| Stats.StdIsLastIStd | npstreams/stats.py:295-333 | `std` is the last value of `istd` |
| Stats.NumbersMoments | npstreams/stats.py:198-200 | over numbers the running sums are the first and second weighted moments |
| Stats.SpreadAround | npstreams/stats.py:292-293 | the weighted square spread around any point is never negative |
| Stats.Dispersion | npstreams/stats.py:292-293 | second moment times weight is at least the square of the first moment |
| Stats.PositiveTotal | npstreams/stats.py:200 | positive weights have a positive total |
| Stats.IVarStep | npstreams/stats.py:291-293 | yield k of `ivar` is the variance formula on moment triple k |
| Stats.MomentsOfNumbers | npstreams/stats.py:198-202 | over numbers moment triple k holds the normalised first and second moments |
| Stats.IVarNonNegative | npstreams/stats.py:250-293 | with `ddof=0` and positive weights every `ivar` value is a non-negative number |
| Stats.NumbersVariance | npstreams/stats.py:292-293 | the variance formula on numeric moments is non-negative |
| Stats.VarOfSums | npstreams/stats.py:292-293 | the variance of a moment triple from sums is non-negative |
| Stats.IVarStartsAtZero | npstreams/stats.py:250-293 | the first `ivar` value is 0 when the first weight is neither 0 nor `ddof` |
| Stats.FirstVariance | npstreams/stats.py:292-293 | the variance of one weighted number is 0 |
| Stats.FirstSums | npstreams/stats.py:198-200 | after one input the sums are `x*w`, `x*x*w` and `w` |
| Stats.VarOfOne | npstreams/stats.py:292-293 | the moments of a single value give variance 0 |
| Stats.SemSquaredIsVarOverWeight | npstreams/stats.py:453-455 | the squared standard error is the variance over the weight total |
| Stats.ISemFromIVar | npstreams/stats.py:416-455 | each `isem` value is the root of the matching squared standard error |
| Stats.StdSquaresToVar | npstreams/stats.py:295-333 | `std` is a non-negative number whose square is `var` |
| Stats.VarNonNegative | npstreams/stats.py:204-248 | `var` with `ddof=0` is a non-negative number |
| Stats.RootSquares | npstreams/stats.py:333 | the root of a non-negative number is non-negative and squares back to it |
| Stats.Histogram | npstreams/stats.py:484 | one count per bin |
| Stats.AddCounts | npstreams/stats.py:489 | `hist += other` keeps the number of bins |
| Stats.Accumulated | npstreams/stats.py:484-489 | the running counts have one entry per bin |
| Stats.IHistogram | npstreams/stats.py:457-489 | an empty stream raises StopIteration at call time; edges that are not increasing raise ValueError; otherwise one yield per array |
| Stats.CountConcat | npstreams/stats.py:489 | counting a concatenation adds the counts |
| Stats.AccumulatedIsHistogram | npstreams/stats.py:484-489 | the running counts after n arrays are the histogram of their concatenation |
| Stats.IHistogramSoFar | npstreams/stats.py:485-489 | yield k is the histogram of the first k+1 arrays together |
| Stats.BinsDisjoint | npstreams/stats.py:484 | no value is in two bins |
| Stats.EdgesOrdered | npstreams/stats.py:484 | increasing edges are ordered pairwise |
| Stats.BinOf | npstreams/stats.py:484 | every number inside the edges lies in some bin |
| Stats.TotalOfHistogram | npstreams/stats.py:484 | the first m bins hold the hits in those bins |
| Stats.CountsStep | npstreams/stats.py:484 | one more value adds its hits |
| Stats.InBinInRange | npstreams/stats.py:484 | a value in a bin lies inside the edges |
| Stats.HitsOnce | npstreams/stats.py:484 | a value inside the edges is counted once, in its own bin |
| Stats.HistogramTotal | npstreams/stats.py:484 | the bins together count exactly the values inside the edges |
| Stats.CountedInRange | npstreams/stats.py:484 | every bin together counts the values inside the edges |
| Stats.EmptyCounts | npstreams/stats.py:484 | nothing is counted in an empty array |
| Stats.AddInto | npstreams/stats.py:489 | `hist += other` in place gives the element-wise sum |
| Stats.IHistogramLoop | npstreams/stats.py:481-489 | the loop over one buffer yields exactly `IHistogram`, and the buffer ends holding the last yield |

## Left out

- Broadcasting is modelled only for `acc[:] = x` on 2-d integer matrices (`Linalg.Assign`). Elsewhere arrays combined element-wise must have equal shapes, and a mismatch raises ValueError.
- NumPy dtype promotion, `casting='unsafe'` conversions and float widths are not modelled. A dtype is a tag, elements are unbounded integers, and statistics use exact reals. There is no overflow or rounding.
- Infinities are not modelled. In the statistics a division by zero gives NaN, which stands for both `inf` and `nan`.
- Complex numbers are not modelled as values. `ArrayUtils.CopyToWhereNaN` covers the stride-2 real and imaginary views of complex storage.
- A ufunc is described by its input count, whether each of its type signatures returns booleans, its identity, whether it is reorderable and its element operation. Its actual type resolution is not modelled.
- `linspace`, `multilinspace`, `cuda.py`, `benchmarks.py`, `utils.py`, `setup.py`, `iload` and `pload` are left out. They cover float step accumulation, GPU transfers, timing, warnings, packaging and file I/O.
- `multiprocessing.Pool` is modelled as sequential chunk folds and in-order maps. Workers, pickling and timing are not modelled. `pmap_unordered`'s completion order is a parameter. `os.cpu_count()` is a parameter.
- The stats functions are modelled per element lane, which covers `axis=-1`, a new stacking axis, and scalar weights per array. Other axes and weight broadcasting shapes are not modelled.
- `Stats.Root`: the square root is an abstract function that is only assumed to invert squaring on non-negative reals.
- `sem`/`isem` default `ddof` values are not modelled; `ddof` is an explicit argument of every variance-family function.
- `Reduce.IgnoreNan`: the model takes arrays as values, so it does not show that `nan_to_num(copy=False)` rewrites the caller's arrays in place. `ArrayUtils.NanToNum` models that rewrite on its own.
- `Reduce.NewAxisLoop`, `Numerics.AccumulateLoop`, `Linalg.IDotLoop` and `Stats.IHistogramLoop` record each yield as a snapshot of the buffer's contents. In the source every yield is the same array object, so a consumer that keeps earlier yields sees them change. That aliasing is stated only through the buffer's final contents.
- `Stats.IHistogram`: bin edges are a sequence of reals. An integer `bins` argument, with its automatic range, is not modelled. Fewer than two edges give an empty histogram.
- `Linalg.ITensorDot`: only the default `axes=2` on 2-d integer matrices is modelled.
- `Linalg.IDot`: only 2-d integer matrices are modelled. Three cases of `np.dot` are not: a 1-d first operand, whose 1-d accumulator `accumulator[:] =` keeps updating; a stream of vectors, whose first product is a scalar so the item assignment raises; and n-d operands.
- `Flow.IPipeYields`: `ipipe` called with no arguments at all is not modelled, and neither are keyword arguments other than `processes`.
- `Reduce.PReduceUfunc`: its own contract covers the stream errors and the one-process case. The multi-process result is stated by `Reduce.PReduceUfuncAssociative` for an associative ufunc, along a new axis over arrays of one shape and over all axes of non-empty arrays. Along an existing axis without `ntotal` it raises (`Reduce.PReduceExistingAxisRaises`). Other cases are stated only through `Reduce.ReduceChunks`: a non-associative ufunc, `ignore_nan`, chunks of several arrays along an existing axis, and arrays of mixed shapes.
- `Reduce.IReduceIgnoreNanNoNaN`: it also asks that stream arrays whose type is not inexact hold no NaN. In NumPy only floating and complex arrays can hold NaN, but the model's values do not tie NaN to a data type.
- `Reduce.ExistingAxisRun`: its own contract bounds only the number of yields. Their contents are stated by `Reduce.ExistingAxisStacks`.
- `Stats.Histogram`, `Stats.AddCounts` and `Stats.Accumulated`: their own contracts state only sizes. Their meaning is stated by `Stats.AccumulatedIsHistogram` and `Stats.HistogramTotal`.
