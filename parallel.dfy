/** Parallel reduce and map (npstreams/parallel.py), modelled sequentially: a pool of worker
    processes reduces or maps the chunks of the input and the parent combines the results in
    chunk order (`imap`), or in the order the workers finish (`imap_unordered`). */
module Parallel {
  import opened Wrappers
  import opened Seqs
  import opened IterUtils

  /** `functools.partial(func, *args)` for a reducing function: stream items come after the bound arguments. */
  function Partial2<A, T(!new)>(func: (seq<A>, T, T) -> T, args: seq<A>): (g: (T, T) -> T)
    ensures forall x, y :: g(x, y) == func(args, x, y)
  {
    (x, y) => func(args, x, y)
  }

  /** `functools.partial(func, *args)` for a mapped function. */
  function Partial1<A, T(!new), U>(func: (seq<A>, T) -> U, args: seq<A>): (g: T -> U)
    ensures forall x :: g(x) == func(args, x)
  {
    x => func(args, x)
  }

  /** `functools.reduce(f, items)` with no initializer: TypeError on an empty iterable. */
  function ReduceOrError<T>(f: (T, T) -> T, items: seq<T>): (r: Result<T>)
    ensures r.Err? <==> items == []
    ensures r.Err? ==> r.error == Exception(TypeError, ReduceOfEmptyIterable)
    ensures |items| == 1 ==> r == Ok(items[0])
  {
    if items == [] then Err(Exception(TypeError, ReduceOfEmptyIterable)) else Ok(Reduce(f, items))
  }

  /** The number of workers `Pool(processes)` starts: `os.cpu_count() or 1` for None (a
      `cpuCount` of 0 stands for an unknown count), ValueError below one. */
  function PoolSize(processes: Option<int>, cpuCount: nat): (r: Result<nat>)
    ensures r.Ok? ==> r.value >= 1
    ensures r.Err? <==> processes.Some? && processes.value < 1
    ensures processes.Some? && processes.value >= 1 ==> r == Ok(processes.value)
  {
    match processes
    case None => Ok(if cpuCount == 0 then 1 else cpuCount)
    case Some(n) => if n < 1 then Err(Exception(ValueError, PoolSizeBelowOne)) else Ok(n)
  }

  /** `int(n / p)`: true division, then truncation toward zero. */
  function TruncDiv(n: int, p: nat): (q: int)
    requires p >= 1
    ensures n >= 0 ==> q == n / p
    ensures n < 0 ==> q <= 0
  {
    if n >= 0 then n / p else -((-n) / p)
  }

  /** The chunk size: `max(1, int(len / processes))` for a sized iterable, else the same with
      `ntotal` when it is given, else 1. */
  function ChunkSize(sizedLength: Option<nat>, ntotal: Option<int>, p: nat): (n: nat)
    requires p >= 1
    ensures n >= 1
    ensures sizedLength.Some? ==> n == (if sizedLength.value / p >= 1 then sizedLength.value / p else 1)
    ensures sizedLength.None? && ntotal.None? ==> n == 1
  {
    var estimate := if sizedLength.Some? then Some(sizedLength.value) else ntotal;
    match estimate
    case None => 1
    case Some(total) => var q := TruncDiv(total, p); if q >= 1 then q else 1
  }

  /** `preduce(func, iterable, args, processes=processes, ntotal=ntotal)`. `sized` says whether
      the iterable has `__len__`. */
  function PReduce<A, T(!new)>(func: (seq<A>, T, T) -> T, args: seq<A>, items: seq<T>, sized: bool,
                         processes: Option<int>, ntotal: Option<int>, cpuCount: nat): (r: Result<T>)
    ensures processes == Some(1) ==> r == ReduceOrError(Partial2(func, args), items)
  {
    var f := Partial2(func, args);
    if processes == Some(1) then ReduceOrError(f, items)
    else
      var p :- PoolSize(processes, cpuCount);
      var n := ChunkSize(if sized then Some(|items|) else None, ntotal, p);
      var chunks := Chunks(items, n);
      ChunksSizes(items, n);
      ReduceOrError(f, ReduceEach(f, chunks))
  }

  /** For an associative function, the multi-process reduction equals the single-process one
      whatever the pool size and the chunk size. */
  lemma PReduceAssociative<A(!new), T(!new)>(func: (seq<A>, T, T) -> T, args: seq<A>, items: seq<T>, sized: bool,
                                              processes: Option<int>, ntotal: Option<int>, cpuCount: nat)
    requires Associative(Partial2(func, args))
    requires PoolSize(processes, cpuCount).Ok?
    ensures PReduce(func, args, items, sized, processes, ntotal, cpuCount) == ReduceOrError(Partial2(func, args), items)
  {
    var f := Partial2(func, args);
    if processes != Some(1) {
      var p := PoolSize(processes, cpuCount).value;
      var n := ChunkSize(if sized then Some(|items|) else None, ntotal, p);
      var chunks := Chunks(items, n);
      ChunksSizes(items, n);
      ChunksFlatten(items, n);
      if items != [] {
        ReduceFlatten(f, chunks);
      }
    }
  }

  /** `pmap(func, iterable, args, processes=...)` as a drained generator: the pool is only
      created at the first `next()`, so an invalid pool size surfaces there. Whatever the
      number of processes, the outputs are `func(*args, x)` for each item, in input order. */
  function PMap<A, T(!new), U>(func: (seq<A>, T) -> U, args: seq<A>, items: seq<T>,
                         processes: Option<int>, cpuCount: nat): (r: Run<U>)
    ensures processes == Some(1) ==> r == Run(Map(Partial1(func, args), items), None)
    ensures r.raised.None? ==> r.outputs == Map(Partial1(func, args), items)
    ensures r.raised.Some? <==> PoolSize(processes, cpuCount).Err?
  {
    var f := Partial1(func, args);
    if processes == Some(1) then Run(Map(f, items), None)
    else
      match PoolSize(processes, cpuCount)
      case Err(e) => Run([], Some(e))
      case Ok(_) => Run(Map(f, items), None)
  }

  /** `completion` is a reordering of the indices `0 .. n-1`. */
  predicate IsPermutation(completion: seq<nat>, n: nat) {
    multiset(completion) == multiset(Range(n))
  }

  /** The indices `0 .. n-1` in order. */
  function Range(n: nat): (r: seq<nat>)
    ensures |r| == n && forall i :: 0 <= i < n ==> r[i] == i
  {
    seq(n, i requires 0 <= i < n => i)
  }

  /** `pmap_unordered(...)` as a drained generator. `completion` is the order in which the
      workers deliver their results; with one process it is not used. */
  function PMapUnordered<A, T(!new), U>(func: (seq<A>, T) -> U, args: seq<A>, items: seq<T>,
                                  processes: Option<int>, cpuCount: nat, completion: seq<nat>): (r: Run<U>)
    requires IsPermutation(completion, |items|)
    ensures processes == Some(1) ==> r == Run(Map(Partial1(func, args), items), None)
    ensures r.raised.None? ==> multiset(r.outputs) == multiset(Map(Partial1(func, args), items))
    ensures r.raised.Some? <==> PoolSize(processes, cpuCount).Err?
  {
    var f := Partial1(func, args);
    if processes == Some(1) then Run(Map(f, items), None)
    else
      match PoolSize(processes, cpuCount)
      case Err(e) => Run([], Some(e))
      case Ok(_) =>
        assert forall k :: 0 <= k < |completion| ==> completion[k] < |items| by {
          forall k | 0 <= k < |completion| ensures completion[k] < |items| {
            assert completion[k] in multiset(completion);
            assert completion[k] in multiset(Range(|items|));
          }
        }
        var picked := seq(|completion|, k requires 0 <= k < |completion| => items[completion[k]]);
        PickedIsPermutation(items, completion);
        MapMultiset(f, picked, items);
        Run(Map(f, picked), None)
  }

  /** Taking the items in a permuted index order yields the same multiset of items. */
  lemma PickedIsPermutation<T>(items: seq<T>, completion: seq<nat>)
    requires IsPermutation(completion, |items|)
    requires forall k :: 0 <= k < |completion| ==> completion[k] < |items|
    ensures multiset(seq(|completion|, k requires 0 <= k < |completion| => items[completion[k]])) == multiset(items)
  {
    var picked := seq(|completion|, k requires 0 <= k < |completion| => items[completion[k]]);
    var range := Range(|items|);
    if items == [] {
      assert |completion| == |multiset(completion)| == |multiset(range)| == 0;
    } else {
      var pick := (i: nat) => if i < |items| then items[i] else items[0];
      MapMultiset(pick, completion, range);
      assert Map(pick, range) == items;
      assert Map(pick, completion) == picked;
    }
  }
}
