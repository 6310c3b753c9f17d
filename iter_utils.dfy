/** Iterator and generator combinators (npstreams/iter_utils.py).
    A finite iterable is modelled by the sequence of items it produces. */
module IterUtils {
  import opened Wrappers
  import opened Seqs

  // ---------------------------------------------------------------------------
  // primed

  /** A generator function whose body first performs `check` (raising its exception, if any)
      and then a bare `yield`, after which it behaves as `body`. */
  datatype PrimableGenerator<T> = PrimableGenerator(check: Option<Exception>, body: Run<T>)

  /** What a consumer sees when the generator function is called WITHOUT `primed`: nothing
      runs at call time; the check's exception surfaces at the first `next()`, and otherwise
      the first value produced is the bare `yield`'s None. */
  function Unprimed<T>(g: PrimableGenerator<T>): Run<Option<T>> {
    if g.check.Some? then Run([], g.check)
    else Run([None] + seq(|g.body.outputs|, i requires 0 <= i < |g.body.outputs| => Some(g.body.outputs[i])),
             g.body.raised)
  }

  /** `primed(gen)(...)`: advances the new generator to its first `yield` at call time, so the
      check's exception is raised by the call itself and the caller never sees the bare yield. */
  function Primed<T>(g: PrimableGenerator<T>): (r: Result<Run<T>>)
    ensures r.Err? <==> Unprimed(g).outputs == []
    ensures r.Err? ==> Unprimed(g) == Run([], Some(r.error))
    ensures r.Ok? ==> (&& Unprimed(g).outputs[0] == None
                       && |Unprimed(g).outputs| == |r.value.outputs| + 1
                       && Unprimed(g).raised == r.value.raised
                       && forall i :: 0 <= i < |r.value.outputs| ==> Unprimed(g).outputs[i + 1] == Some(r.value.outputs[i]))
  {
    if g.check.Some? then Err(g.check.value) else Ok(g.body)
  }

  // ---------------------------------------------------------------------------
  // chunked

  /** The `chunksize` argument: an `int`, or any other Python object. */
  datatype ChunkArg = IntArg(n: int) | NonIntArg

  function Min(a: int, b: int): int { if a <= b then a else b }

  /** Consecutive slices of `xs` of length `n` (the last one may be shorter). */
  function Chunks<T>(xs: seq<T>, n: nat): seq<seq<T>>
    requires n >= 1
    decreases |xs|
  {
    if xs == [] then []
    else var k := Min(n, |xs|); [xs[..k]] + Chunks(xs[k..], n)
  }

  /** The chunks put back together give the input back. */
  lemma {:induction false} ChunksFlatten<T>(xs: seq<T>, n: nat)
    requires n >= 1
    ensures Flatten(Chunks(xs, n)) == xs
    decreases |xs|
  {
    if xs != [] {
      var k := Min(n, |xs|);
      ChunksFlatten(xs[k..], n);
      assert xs[..k] + xs[k..] == xs;
    }
  }

  /** Every chunk has exactly `n` items except the last, which is non-empty and at most `n` long. */
  lemma {:induction false} ChunksSizes<T>(xs: seq<T>, n: nat)
    requires n >= 1
    ensures var cs := Chunks(xs, n);
            && (xs == [] <==> cs == [])
            && (forall i :: 0 <= i < |cs| - 1 ==> |cs[i]| == n)
            && (cs != [] ==> 0 < |cs[|cs| - 1]| <= n)
    decreases |xs|
  {
    if xs != [] {
      var k := Min(n, |xs|);
      ChunksSizes(xs[k..], n);
      var cs := Chunks(xs, n);
      var tail := Chunks(xs[k..], n);
      assert cs == [xs[..k]] + tail;
      if tail != [] {
        assert k == n;
        forall i | 0 <= i < |cs| - 1 ensures |cs[i]| == n {
          if i > 0 { assert cs[i] == tail[i - 1]; }
        }
      }
    }
  }

  /** Every item of every chunk is an item of the input. */
  lemma ChunksMember<T>(xs: seq<T>, n: nat, i: nat, k: nat)
    requires n >= 1 && i < |Chunks(xs, n)| && k < |Chunks(xs, n)[i]|
    ensures Chunks(xs, n)[i][k] in xs
  {
    ChunksFlatten(xs, n);
    FlattenMember(Chunks(xs, n), Chunks(xs, n)[i][k]);
  }

  /** The generator body of `chunked` after priming: `islice` with a negative stop raises
      ValueError at the first pull, a zero chunk size ends the stream at once. */
  function ChunkedBody<T>(xs: seq<T>, n: int): Run<seq<T>> {
    if n < 0 then Run([], Some(Exception(ValueError, IsliceStopOutOfRange)))
    else if n == 0 then Run([], None)
    else Run(Chunks(xs, n), None)
  }

  /** `chunked(iterable, chunksize)`: primed, so a non-integer chunk size raises TypeError at call time. */
  function Chunked<T>(xs: seq<T>, chunksize: ChunkArg): (r: Result<Run<seq<T>>>)
    ensures r.Err? <==> chunksize.NonIntArg?
    ensures r.Err? ==> r.error == Exception(TypeError, ChunksizeNotInteger)
    ensures r.Ok? && chunksize.n >= 1 ==> r.value.raised == None && Flatten(r.value.outputs) == xs
  {
    var g := PrimableGenerator(if chunksize.NonIntArg? then Some(Exception(TypeError, ChunksizeNotInteger)) else None,
                               if chunksize.IntArg? then ChunkedBody(xs, chunksize.n) else Run([], None));
    var r := Primed(g);
    if r.Ok? && chunksize.n >= 1 then ChunksFlatten(xs, chunksize.n); r else r
  }

  /** Peeling one `islice` of `n` items off the rest of the input, from position `start`. */
  lemma ChunksFrom<T>(xs: seq<T>, n: nat, start: nat)
    requires n >= 1 && start < |xs|
    ensures Chunks(xs[start..], n) ==
              [xs[start..start + Min(n, |xs| - start)]] + Chunks(xs[start + Min(n, |xs| - start)..], n)
  {
    var tail := xs[start..];
    var k := Min(n, |tail|);
    assert tail[..k] == xs[start..start + k];
    assert tail[k..] == xs[start + k..];
  }

  /** The `while next_chunk:` loop of `chunked`, pulling one `islice` of `n` items per round. */
  method ChunkedLoop<T>(xs: seq<T>, n: int) returns (run: Run<seq<T>>)
    ensures run == ChunkedBody(xs, n)
  {
    if n < 0 {
      return Run([], Some(Exception(ValueError, IsliceStopOutOfRange)));
    }
    var chunks: seq<seq<T>> := [];
    var start := 0;
    var nextChunk := xs[..Min(n, |xs|)];
    assert xs[0..] == xs;
    while nextChunk != []
      invariant 0 <= start <= |xs|
      invariant nextChunk == xs[start..start + Min(n, |xs| - start)]
      invariant n > 0 ==> chunks + Chunks(xs[start..], n) == Chunks(xs, n)
      invariant n == 0 ==> chunks == []
      decreases |xs| - start
    {
      ChunksFrom(xs, n, start);
      ghost var rest := Chunks(xs[start + |nextChunk|..], n);
      assert (chunks + [nextChunk]) + rest == chunks + ([nextChunk] + rest);
      chunks := chunks + [nextChunk];
      start := start + |nextChunk|;
      nextChunk := xs[start..start + Min(n, |xs| - start)];
    }
    if n > 0 {
      assert xs[start..] == [];
    }
    run := Run(chunks, None);
  }

  // ---------------------------------------------------------------------------
  // peek, itercopy, last, cyclic

  /** `peek(iterable)`: the first item, and a stream that still produces every item. */
  function Peek<T>(xs: seq<T>): (r: Result<(T, seq<T>)>)
    ensures r.Err? <==> xs == []
    ensures r.Err? ==> r.error == Exception(StopIteration, IteratorExhausted)
    ensures r.Ok? ==> r.value.0 == xs[0] && r.value.1 == xs
  {
    if xs == [] then Err(Exception(StopIteration, IteratorExhausted))
    else
      assert [xs[0]] + xs[1..] == xs;
      Ok((xs[0], [xs[0]] + xs[1..]))
  }

  /** `itercopy(iterable, copies)` (`itertools.tee`): `copies` independent iterators over the same items. */
  function IterCopy<T>(xs: seq<T>, copies: int): (r: Result<seq<seq<T>>>)
    ensures r.Err? <==> copies < 0
    ensures r.Ok? ==> |r.value| == copies && forall c :: 0 <= c < |r.value| ==> r.value[c] == xs
  {
    if copies < 0 then Err(Exception(ValueError, TeeNegativeCount))
    else Ok(seq(copies, _ => xs))
  }

  /** The value `last` returns or the exception it raises, for a drained generator. */
  function LastOf<T>(run: Run<T>): Result<T> {
    if run.raised.Some? then Err(run.raised.value)
    else if run.outputs == [] then Err(Exception(RuntimeError, EmptyStream))
    else Ok(run.outputs[|run.outputs| - 1])
  }

  /** `last(stream)`: drains the stream through a one-slot `deque`; an empty stream raises
      RuntimeError, and an exception raised by the stream itself propagates. */
  method Last<T>(run: Run<T>) returns (r: Result<T>)
    ensures r.Ok? <==> run.raised.None? && run.outputs != []
    ensures r.Ok? ==> r.value == run.outputs[|run.outputs| - 1]
    ensures run.raised.Some? ==> r == Err(run.raised.value)
    ensures run.raised.None? && run.outputs == [] ==> r == Err(Exception(RuntimeError, EmptyStream))
    ensures r == LastOf(run)
  {
    var window: seq<T> := [];
    for i := 0 to |run.outputs|
      invariant |window| == Min(i, 1)
      invariant i > 0 ==> window == [run.outputs[i - 1]]
    {
      window := [run.outputs[i]];
    }
    if run.raised.Some? {
      return Err(run.raised.value);
    }
    if window == [] {
      return Err(Exception(RuntimeError, EmptyStream));
    }
    r := Ok(window[0]);
  }

  /** Python's `s[k]` for `-n <= k < n`: negative indices count from the end. */
  function PyIndex(k: int, n: nat): (i: nat)
    requires -(n as int) <= k < n
    ensures i < n && i == k % n
  {
    if k < 0 then k + n else k
  }

  /** `cyclic(iterable)`: tuple `j` has `out[i] = in[i - j]` (Python indexing). */
  function Cyclic<T>(xs: seq<T>): (r: seq<seq<T>>)
    ensures |r| == |xs|
    ensures forall j :: 0 <= j < |r| ==> |r[j]| == |xs|
    ensures forall j, i :: 0 <= j < |xs| && 0 <= i < |xs| ==> r[j][i] == xs[(i - j) % |xs|]
  {
    var n := |xs|;
    seq(n, j requires 0 <= j < n => seq(n, i requires 0 <= i < n => xs[PyIndex(i - j, n)]))
  }

  /** Tuple `j` of `cyclic` is the input rotated right by `j` places, so the tuples are
      exactly the `n` rotations, the first being the input itself. */
  lemma CyclicRotation<T>(xs: seq<T>, j: nat)
    requires j < |xs|
    ensures Cyclic(xs)[j] == xs[|xs| - j..] + xs[..|xs| - j]
  {
    var n := |xs|;
    var rot := xs[n - j..] + xs[..n - j];
    forall i | 0 <= i < n ensures Cyclic(xs)[j][i] == rot[i] {
      assert Cyclic(xs)[j][i] == xs[PyIndex(i - j, n)];
      if i < j {
        assert rot[i] == xs[n - j + i];
      } else {
        assert rot[i] == xs[i - j];
      }
    }
  }

  // ---------------------------------------------------------------------------
  // length_hint (PEP 424)

  /** A length estimate, or the `NotImplemented` singleton that `ArrayStream` uses as default. */
  datatype LengthHint = Length(n: int) | NotImplemented

  /** What calling `type(obj).__length_hint__(obj)` does. */
  datatype HintOutcome = ReturnsInt(n: int) | ReturnsNotImplemented | ReturnsNonInt | RaisesTypeError

  /** What `obj` offers: `__len__`, only `__length_hint__`, or neither. */
  datatype LengthInfo = HasLen(len: nat) | HasHintMethod(outcome: HintOutcome) | NoLengthInfo

  /** `length_hint(obj, default)`. */
  function LengthHintOf(obj: LengthInfo, default: LengthHint): (r: Result<LengthHint>)
    ensures obj.HasLen? ==> r == Ok(Length(obj.len))
    ensures r.Ok? && r.value != default ==> r.value.Length? && r.value.n >= 0
    ensures r.Err? <==> obj.HasHintMethod? && (obj.outcome.ReturnsNonInt? || (obj.outcome.ReturnsInt? && obj.outcome.n < 0))
    ensures r.Err? ==> r.error.kind == (if obj.outcome.ReturnsNonInt? then TypeError else ValueError)
    ensures obj.NoLengthInfo? || (obj.HasHintMethod? && (obj.outcome.RaisesTypeError? || obj.outcome.ReturnsNotImplemented?))
            ==> r == Ok(default)
  {
    match obj
    case HasLen(len) => Ok(Length(len))
    case NoLengthInfo => Ok(default)
    case HasHintMethod(outcome) =>
      match outcome
      case RaisesTypeError => Ok(default)
      case ReturnsNotImplemented => Ok(default)
      case ReturnsNonInt => Err(Exception(TypeError, HintNotInteger))
      case ReturnsInt(n) => if n < 0 then Err(Exception(ValueError, NegativeHint)) else Ok(Length(n))
  }
}
