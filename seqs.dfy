/** Sequence operations the modelled list code is built from. */
module Seqs {

  /** `[f(x) for x in xs if keep(x)]`: the records a card loop appends, in card order. */
  function FilterMap<C, R>(xs: seq<C>, keep: C -> bool, f: C -> R): (r: seq<R>)
    ensures |r| <= |xs|
  {
    if xs == [] then []
    else FilterMap(xs[..|xs| - 1], keep, f) + (if keep(xs[|xs| - 1]) then [f(xs[|xs| - 1])] else [])
  }

  /** The loop step: one more element handled. */
  lemma FilterMapSnoc<C, R>(xs: seq<C>, x: C, keep: C -> bool, f: C -> R)
    ensures FilterMap(xs + [x], keep, f) == FilterMap(xs, keep, f) + (if keep(x) then [f(x)] else [])
  {
    assert (xs + [x])[..|xs|] == xs;
  }

  /** Filtering distributes over concatenation: the output keeps input order. */
  lemma {:induction false} FilterMapAppend<C, R>(a: seq<C>, b: seq<C>, keep: C -> bool, f: C -> R)
    ensures FilterMap(a + b, keep, f) == FilterMap(a, keep, f) + FilterMap(b, keep, f)
    decreases |b|
  {
    if b == [] {
      assert a + b == a;
    } else {
      var b' := b[..|b| - 1];
      var x := b[|b| - 1];
      assert b == b' + [x];
      assert a + b == (a + b') + [x];
      FilterMapSnoc(a + b', x, keep, f);
      FilterMapAppend(a, b', keep, f);
      FilterMapSnoc(b', x, keep, f);
    }
  }

  /** An output element is the image of a kept input element, and every kept input element has its image in the output. */
  lemma {:induction false} FilterMapMember<C, R>(xs: seq<C>, keep: C -> bool, f: C -> R, y: R)
    ensures y in FilterMap(xs, keep, f) <==> exists i :: 0 <= i < |xs| && keep(xs[i]) && y == f(xs[i])
    decreases |xs|
  {
    if xs != [] {
      var xs' := xs[..|xs| - 1];
      FilterMapMember(xs', keep, f, y);
      forall i | 0 <= i < |xs'| ensures xs'[i] == xs[i] { }
    }
  }

  /** Number of elements `keep` accepts. */
  function CountKept<C>(xs: seq<C>, keep: C -> bool): nat {
    if xs == [] then 0 else CountKept(xs[..|xs| - 1], keep) + (if keep(xs[|xs| - 1]) then 1 else 0)
  }

  /** One output element per kept input element. */
  lemma {:induction false} FilterMapLength<C, R>(xs: seq<C>, keep: C -> bool, f: C -> R)
    ensures |FilterMap(xs, keep, f)| == CountKept(xs, keep)
    decreases |xs|
  {
    if xs != [] {
      FilterMapLength(xs[..|xs| - 1], keep, f);
    }
  }

  /** The positions of the kept elements, in increasing order. */
  function KeptIndices<C>(xs: seq<C>, keep: C -> bool): (ks: seq<nat>)
    ensures forall k :: 0 <= k < |ks| ==> ks[k] < |xs| && keep(xs[ks[k]])
    ensures forall k, k' :: 0 <= k < k' < |ks| ==> ks[k] < ks[k']
  {
    if xs == [] then []
    else KeptIndices(xs[..|xs| - 1], keep) + (if keep(xs[|xs| - 1]) then [|xs| - 1] else [])
  }

  /** Output element `k` is the image of the `k`-th kept input element: the output is the kept inputs mapped, in input order. */
  lemma {:induction false} FilterMapAtKeptIndices<C, R>(xs: seq<C>, keep: C -> bool, f: C -> R)
    ensures |FilterMap(xs, keep, f)| == |KeptIndices(xs, keep)|
    ensures forall k :: 0 <= k < |KeptIndices(xs, keep)| ==> FilterMap(xs, keep, f)[k] == f(xs[KeptIndices(xs, keep)[k]])
    decreases |xs|
  {
    if xs != [] {
      var xs' := xs[..|xs| - 1];
      FilterMapAtKeptIndices(xs', keep, f);
      forall i | 0 <= i < |xs'| ensures xs'[i] == xs[i] { }
    }
  }

  /** No element occurs twice. */
  predicate NoDup<T(==)>(s: seq<T>) {
    forall i, j :: 0 <= i < j < |s| ==> s[i] != s[j]
  }

  /** The index of the first occurrence of `x` in `s`. */
  function FirstIndex<T(==)>(s: seq<T>, x: T): (k: nat)
    requires x in s
    ensures k < |s| && s[k] == x
    ensures forall j :: 0 <= j < k ==> s[j] != x
  {
    if s[0] == x then 0 else 1 + FirstIndex(s[1..], x)
  }

  /** Python's `list.remove(x)` when `x` is in the list: drops its first occurrence. */
  function RemoveFirst<T(==)>(s: seq<T>, x: T): (r: seq<T>)
    requires x in s
    ensures |r| == |s| - 1
  {
    var k := FirstIndex(s, x);
    s[..k] + s[k + 1..]
  }

  /** Removing the first occurrence keeps every other element and, in a list without duplicates, removes `x` entirely. */
  lemma RemoveFirstMembers<T>(s: seq<T>, x: T, y: T)
    requires x in s
    ensures y != x ==> (y in RemoveFirst(s, x) <==> y in s)
    ensures NoDup(s) ==> NoDup(RemoveFirst(s, x)) && x !in RemoveFirst(s, x)
  {
    var k := FirstIndex(s, x);
    var r := RemoveFirst(s, x);
    assert forall i :: 0 <= i < |r| ==> r[i] == (if i < k then s[i] else s[i + 1]);
    if y != x && y in s {
      var i :| 0 <= i < |s| && s[i] == y;
      assert y == r[if i < k then i else i - 1];
    }
    if NoDup(s) {
      forall i, j | 0 <= i < j < |r| ensures r[i] != r[j] {
        assert r[i] == s[if i < k then i else i + 1];
        assert r[j] == s[if j < k then j else j + 1];
      }
    }
  }

  /** Python's `list.pop(i)`. */
  function RemoveAt<T>(s: seq<T>, i: nat): (r: seq<T>)
    requires i < |s|
    ensures |r| == |s| - 1
    ensures forall k :: 0 <= k < |r| ==> r[k] == (if k < i then s[k] else s[k + 1])
  {
    s[..i] + s[i + 1..]
  }
}
