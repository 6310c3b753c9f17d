/** Generic facts about finite sequences shared by the stream modules. */
module Seqs {

  /** Concatenation of a sequence of sequences (`itertools.chain.from_iterable`). */
  function Flatten<T>(parts: seq<seq<T>>): seq<T> {
    if parts == [] then [] else parts[0] + Flatten(parts[1..])
  }

  lemma {:induction false} FlattenAppend<T>(parts: seq<seq<T>>, last: seq<T>)
    ensures Flatten(parts + [last]) == Flatten(parts) + last
  {
    if parts == [] {
      assert [last][1..] == [];
    } else {
      assert (parts + [last])[1..] == parts[1..] + [last];
      FlattenAppend(parts[1..], last);
    }
  }

  lemma {:induction false} FlattenConcat<T>(a: seq<seq<T>>, b: seq<seq<T>>)
    ensures Flatten(a + b) == Flatten(a) + Flatten(b)
  {
    if a == [] {
      assert a + b == b;
    } else {
      assert (a + b)[1..] == a[1..] + b;
      FlattenConcat(a[1..], b);
    }
  }

  /** An element of the concatenation is an element of one of the parts, and conversely. */
  lemma {:induction false} FlattenMember<T>(parts: seq<seq<T>>, x: T)
    ensures x in Flatten(parts) <==> exists i :: 0 <= i < |parts| && x in parts[i]
  {
    if parts != [] {
      FlattenMember(parts[1..], x);
      if x in Flatten(parts[1..]) {
        var i :| 0 <= i < |parts[1..]| && x in parts[1..][i];
        assert x in parts[i + 1];
      }
      if exists i :: 0 <= i < |parts| && x in parts[i] {
        var i :| 0 <= i < |parts| && x in parts[i];
        if i > 0 {
          assert x in parts[1..][i - 1];
        }
      }
    }
  }

  /** `map(f, xs)`. */
  function Map<T, U>(f: T -> U, xs: seq<T>): (r: seq<U>)
    ensures |r| == |xs|
    ensures forall i :: 0 <= i < |xs| ==> r[i] == f(xs[i])
  {
    seq(|xs|, i requires 0 <= i < |xs| => f(xs[i]))
  }

  /** `functools.reduce(f, xs)` without an initializer: a left fold seeded with the first item. */
  function Reduce<T>(f: (T, T) -> T, xs: seq<T>): T
    requires |xs| > 0
  {
    if |xs| == 1 then xs[0] else f(Reduce(f, xs[..|xs| - 1]), xs[|xs| - 1])
  }

  /** `f` is associative. */
  ghost predicate Associative<T(!new)>(f: (T, T) -> T) {
    forall x, y, z :: f(f(x, y), z) == f(x, f(y, z))
  }

  /** For an associative operator, reducing a concatenation is combining the reductions of the parts. */
  lemma {:induction false} ReduceConcat<T(!new)>(f: (T, T) -> T, a: seq<T>, b: seq<T>)
    requires Associative(f) && |a| > 0 && |b| > 0
    ensures Reduce(f, a + b) == f(Reduce(f, a), Reduce(f, b))
    decreases |b|
  {
    var ab := a + b;
    if |b| == 1 {
      assert ab[..|ab| - 1] == a;
    } else {
      var b' := b[..|b| - 1];
      assert ab[..|ab| - 1] == a + b';
      assert b[..|b| - 1] == b';
      ReduceConcat(f, a, b');
    }
  }

  /** The reduction of each of a list of non-empty parts. */
  function ReduceEach<T>(f: (T, T) -> T, parts: seq<seq<T>>): (r: seq<T>)
    requires forall i :: 0 <= i < |parts| ==> |parts[i]| > 0
    ensures |r| == |parts| && forall i :: 0 <= i < |parts| ==> r[i] == Reduce(f, parts[i])
  {
    seq(|parts|, i requires 0 <= i < |parts| => Reduce(f, parts[i]))
  }

  /** For an associative operator, reducing a concatenation of non-empty parts is reducing the
      reductions of the parts, in order. */
  lemma {:induction false} ReduceFlatten<T(!new)>(f: (T, T) -> T, parts: seq<seq<T>>)
    requires Associative(f) && |parts| > 0
    requires forall i :: 0 <= i < |parts| ==> |parts[i]| > 0
    ensures |Flatten(parts)| > 0
    ensures Reduce(f, Flatten(parts)) == Reduce(f, ReduceEach(f, parts))
    decreases |parts|
  {
    var n := |parts|;
    var init := parts[..n - 1];
    assert parts == init + [parts[n - 1]];
    FlattenAppend(init, parts[n - 1]);
    if n == 1 {
      assert Flatten(init) == [];
      assert Flatten(parts) == parts[0];
    } else {
      ReduceFlatten(f, init);
      ReduceConcat(f, Flatten(init), parts[n - 1]);
      assert ReduceEach(f, parts)[..n - 1] == ReduceEach(f, init);
    }
  }

  /** Removing position `k` removes one occurrence of `b[k]`. */
  lemma MultisetRemove<T>(b: seq<T>, k: nat)
    requires k < |b|
    ensures multiset(b) == multiset(b[..k] + b[k + 1..]) + multiset{b[k]}
  {
    assert b == b[..k] + [b[k]] + b[k + 1..];
  }

  /** Mapping commutes with removing position `k`. */
  lemma MapRemove<T, U>(f: T -> U, b: seq<T>, k: nat)
    requires k < |b|
    ensures Map(f, b[..k] + b[k + 1..]) == Map(f, b)[..k] + Map(f, b)[k + 1..]
  {
  }

  /** Dropping the first element of `a` and a matching position of `b` keeps two sequences
      with the same elements. */
  lemma MultisetDropMatch<T>(a: seq<T>, b: seq<T>, k: nat)
    requires multiset(a) == multiset(b) && |a| > 0 && k < |b| && b[k] == a[0]
    ensures multiset(a[1..]) == multiset(b[..k] + b[k + 1..])
  {
    var b' := b[..k] + b[k + 1..];
    MultisetRemove(b, k);
    MultisetRemove(a, 0);
    assert a[..0] + a[1..] == a[1..];
    MultisetCancel(multiset(a[1..]), multiset(b'), multiset{a[0]});
  }

  /** Adding the same elements to two multisets with equal sums leaves them equal. */
  lemma MultisetCancel<T>(m: multiset<T>, n: multiset<T>, c: multiset<T>)
    requires m + c == n + c
    ensures m == n
  {
    assert m == (m + c) - c;
    assert n == (n + c) - c;
  }

  /** Mapping a sequence whose position `k` was removed adds `f` of that element back. */
  lemma MapMultisetRemove<T, U>(f: T -> U, b: seq<T>, k: nat)
    requires k < |b|
    ensures multiset(Map(f, b)) == multiset(Map(f, b[..k] + b[k + 1..])) + multiset{f(b[k])}
  {
    MapRemove(f, b, k);
    MultisetRemove(Map(f, b), k);
  }

  /** Two sequences with the same elements, counted with multiplicity, still have the same
      elements once `f` is applied to each. */
  lemma {:induction false} MapMultiset<T, U>(f: T -> U, a: seq<T>, b: seq<T>)
    requires multiset(a) == multiset(b)
    ensures multiset(Map(f, a)) == multiset(Map(f, b))
    decreases |a|
  {
    if a == [] {
      assert |b| == |multiset(b)| == 0;
    } else {
      assert a[0] in multiset(b);
      var k :| 0 <= k < |b| && b[k] == a[0];
      MultisetDropMatch(a, b, k);
      MapMultiset(f, a[1..], b[..k] + b[k + 1..]);
      MapMultisetStep(f, a, b, k);
    }
  }

  /** One step of `MapMultiset`: the first element of `a` matched with position `k` of `b`. */
  lemma MapMultisetStep<T, U>(f: T -> U, a: seq<T>, b: seq<T>, k: nat)
    requires |a| > 0 && k < |b| && b[k] == a[0]
    requires multiset(Map(f, a[1..])) == multiset(Map(f, b[..k] + b[k + 1..]))
    ensures multiset(Map(f, a)) == multiset(Map(f, b))
  {
    MapMultisetHead(f, a);
    MapMultisetRemove(f, b, k);
  }

  /** Mapping a non-empty sequence adds `f` of its first element to the mapped rest. */
  lemma MapMultisetHead<T, U>(f: T -> U, a: seq<T>)
    requires |a| > 0
    ensures multiset(Map(f, a)) == multiset(Map(f, a[1..])) + multiset{f(a[0])}
  {
    assert Map(f, a) == [f(a[0])] + Map(f, a[1..]);
  }
}
