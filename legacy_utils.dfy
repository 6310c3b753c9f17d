/** The older stream decorator (npstreams/_utils.py): a bare array becomes a one-element
    tuple and every element goes through `np.asarray` lazily. Nothing is peeked, so an empty
    iterable is accepted, and no common data type is imposed. */
module LegacyStreams {
  import opened Wrappers
  import opened NdArrays
  import opened ArrayStreams

  /** The arrays the decorated function receives. */
  function LegacyArrayStream(src: Source): (r: seq<Array>)
    ensures src.BareArray? ==> r == [src.a]
    ensures src.Iterable? ==> |r| == |src.items| && forall i :: 0 <= i < |r| ==> r[i] == src.items[i]
  {
    if src.BareArray? then [src.a] else src.items
  }

  /** Whenever `ArrayStream` accepts a source, both decorators deliver the same number of arrays
      with the same shapes and elements in the same order; they differ only in that
      `ArrayStream` converts every array to the first one's data type. An empty iterable,
      which `ArrayStream` rejects, passes through the legacy decorator as an empty stream. */
  lemma LegacyAgreesUpToDtype(src: Source)
    ensures StreamItems(src).Ok? ==>
      var a := StreamItems(src).value;
      var b := LegacyArrayStream(src);
      && |a| == |b| > 0
      && forall i :: 0 <= i < |a| ==> a[i].shape == b[i].shape && a[i].data == b[i].data && a[i].dtype == b[0].dtype
    ensures src.Iterable? && src.items == [] ==> LegacyArrayStream(src) == [] && StreamItems(src).Err?
  {
  }
}
