/** Kotlin's `sortedWith` / `sortedBy` / `sortedByDescending` are stable sorts.
    They are modelled once, as an insertion sort over a strict "goes before"
    relation `lt`; stability is stated against a relation `pos` that orders the
    input. */
module Sorting {

  /** `lt` is a strict weak order: irreflexive, transitive, and "neither goes
      before the other" is transitive too. Every comparator built from a key
      with a total order is one. */
  ghost predicate StrictWeakOrder<T(!new)>(lt: (T, T) -> bool) {
    && (forall a :: !lt(a, a))
    && (forall a, b, c :: lt(a, b) && lt(b, c) ==> lt(a, c))
    && (forall a, b, c :: !lt(a, b) && !lt(b, c) ==> !lt(a, c))
  }

  /** `a` may stand before `b` in a stably sorted sequence. */
  ghost predicate Before<T>(a: T, b: T, lt: (T, T) -> bool, pos: (T, T) -> bool) {
    lt(a, b) || (!lt(b, a) && pos(a, b))
  }

  ghost predicate StablySorted<T>(r: seq<T>, lt: (T, T) -> bool, pos: (T, T) -> bool) {
    forall p, q :: 0 <= p < q < |r| ==> Before(r[p], r[q], lt, pos)
  }

  /** No later element goes strictly before an earlier one. */
  ghost predicate Sorted<T>(r: seq<T>, lt: (T, T) -> bool) {
    forall p, q :: 0 <= p < q < |r| ==> !lt(r[q], r[p])
  }

  /** Inserts `x` in front of the first element that does not go strictly
      before it, so `x` precedes every element it ties with. */
  function Insert<T>(x: T, s: seq<T>, lt: (T, T) -> bool): (r: seq<T>)
    ensures |r| == |s| + 1
    ensures multiset(r) == multiset(s) + multiset{x}
  {
    if s == [] || !lt(s[0], x) then [x] + s
    else
      assert s == [s[0]] + s[1..];
      [s[0]] + Insert(x, s[1..], lt)
  }

  /** A stable sort: `SortBy(s, lt)` is a permutation of `s` ordered by `lt`. */
  function SortBy<T>(s: seq<T>, lt: (T, T) -> bool): (r: seq<T>)
    ensures |r| == |s|
    ensures multiset(r) == multiset(s)
  {
    if s == [] then []
    else
      assert s == [s[0]] + s[1..];
      Insert(s[0], SortBy(s[1..], lt), lt)
  }

  lemma {:induction false} InsertStable<T(!new)>(x: T, t: seq<T>, lt: (T, T) -> bool, pos: (T, T) -> bool)
    requires StrictWeakOrder(lt)
    requires StablySorted(t, lt, pos)
    requires forall y :: y in t ==> pos(x, y)
    ensures StablySorted(Insert(x, t, lt), lt, pos)
  {
    if t == [] || !lt(t[0], x) {
      InsertInFront(x, t, lt, pos);
    } else {
      var rest := Insert(x, t[1..], lt);
      assert forall y :: y in t[1..] ==> y in t;
      InsertStable(x, t[1..], lt, pos);
      HeadBeforeInserted(x, t, rest, lt, pos);
      ConsStable(t[0], rest, lt, pos);
      assert Insert(x, t, lt) == [t[0]] + rest;
    }
  }

  /** `x` ties with or goes before the head, and so goes before everything. */
  lemma InsertInFront<T(!new)>(x: T, t: seq<T>, lt: (T, T) -> bool, pos: (T, T) -> bool)
    requires StrictWeakOrder(lt)
    requires StablySorted(t, lt, pos)
    requires forall y :: y in t ==> pos(x, y)
    requires t == [] || !lt(t[0], x)
    ensures StablySorted([x] + t, lt, pos)
  {
    forall q | 0 <= q < |t|
      ensures Before(x, t[q], lt, pos)
    {
      assert t[q] in t;
      if q > 0 {
        assert Before(t[0], t[q], lt, pos);
      }
    }
    ConsStable(x, t, lt, pos);
  }

  /** The head of `t`, going strictly before `x`, goes before everything
      that inserting `x` into the rest of `t` gives. */
  lemma HeadBeforeInserted<T(!new)>(x: T, t: seq<T>, rest: seq<T>, lt: (T, T) -> bool, pos: (T, T) -> bool)
    requires StablySorted(t, lt, pos)
    requires t != [] && lt(t[0], x) && rest == Insert(x, t[1..], lt)
    ensures forall q :: 0 <= q < |rest| ==> Before(t[0], rest[q], lt, pos)
  {
    forall q | 0 <= q < |rest|
      ensures Before(t[0], rest[q], lt, pos)
    {
      var y := rest[q];
      assert y in multiset(rest);
      if y != x {
        assert y in multiset(t[1..]);
        var j :| 0 <= j < |t[1..]| && t[1..][j] == y;
        assert Before(t[0], t[j + 1], lt, pos);
      }
    }
  }

  /** A stably sorted sequence stays so with a head that goes before all of it. */
  lemma ConsStable<T>(h: T, rest: seq<T>, lt: (T, T) -> bool, pos: (T, T) -> bool)
    requires StablySorted(rest, lt, pos)
    requires forall q :: 0 <= q < |rest| ==> Before(h, rest[q], lt, pos)
    ensures StablySorted([h] + rest, lt, pos)
  {
    var r := [h] + rest;
    forall p, q | 0 <= p < q < |r|
      ensures Before(r[p], r[q], lt, pos)
    {
      if p > 0 {
        assert r[p] == rest[p - 1] && r[q] == rest[q - 1];
      }
    }
  }

  /** Sorting an input whose elements are ordered by `pos` gives a sequence in
      which `lt` decides, and ties keep their `pos` order: the sort is stable. */
  lemma {:induction false} SortByIsStable<T(!new)>(s: seq<T>, lt: (T, T) -> bool, pos: (T, T) -> bool)
    requires StrictWeakOrder(lt)
    requires forall p, q :: 0 <= p < q < |s| ==> pos(s[p], s[q])
    ensures StablySorted(SortBy(s, lt), lt, pos)
  {
    if s != [] {
      SortByIsStable(s[1..], lt, pos);
      var t := SortBy(s[1..], lt);
      forall y | y in t
        ensures pos(s[0], y)
      {
        assert y in multiset(s[1..]);
        var j :| 0 <= j < |s[1..]| && s[1..][j] == y;
        assert s[j + 1] == y;
      }
      InsertStable(s[0], t, lt, pos);
    }
  }

  lemma StablySortedIsSorted<T(!new)>(r: seq<T>, lt: (T, T) -> bool, pos: (T, T) -> bool)
    requires StrictWeakOrder(lt)
    requires StablySorted(r, lt, pos)
    ensures Sorted(r, lt)
  {
    forall p, q | 0 <= p < q < |r|
      ensures !lt(r[q], r[p])
    {
      assert Before(r[p], r[q], lt, pos);
    }
  }

  /** The sort result is ordered by `lt`. */
  lemma {:induction false} SortByIsSorted<T(!new)>(s: seq<T>, lt: (T, T) -> bool)
    requires StrictWeakOrder(lt)
    ensures Sorted(SortBy(s, lt), lt)
  {
    var anywhere := (a: T, b: T) => true;
    SortByIsStable(s, lt, anywhere);
    StablySortedIsSorted(SortBy(s, lt), lt, anywhere);
  }

  /** A comparator on a key inherits the strict weak order of the key's comparator. */
  lemma KeyOrder<T(!new), K(!new)>(key: T -> K, ltK: (K, K) -> bool, lt: (T, T) -> bool)
    requires StrictWeakOrder(ltK)
    requires forall a, b :: lt(a, b) == ltK(key(a), key(b))
    ensures StrictWeakOrder(lt)
  {
  }

  /** 0, 1, ..., n - 1. */
  function Range(n: nat): (r: seq<nat>)
    ensures |r| == n && forall k :: 0 <= k < n ==> r[k] == k
  {
    seq(n, k requires 0 <= k < n => k as nat)
  }

  /** The first components of a sequence of pairs. */
  function Firsts<A, B>(s: seq<(A, B)>): (r: seq<A>)
    ensures |r| == |s| && forall k :: 0 <= k < |s| ==> r[k] == s[k].0
  {
    seq(|s|, k requires 0 <= k < |s| => s[k].0)
  }

  lemma FirstsAppend<A, B>(a: seq<(A, B)>, b: seq<(A, B)>)
    ensures Firsts(a + b) == Firsts(a) + Firsts(b)
  {
  }

  /** Removing the element at `j` takes exactly that element out of the multiset. */
  lemma RemoveAt<T>(b: seq<T>, j: nat)
    requires j < |b|
    ensures multiset(b[..j] + b[j + 1..]) == multiset(b) - multiset{b[j]}
  {
    assert b == b[..j] + [b[j]] + b[j + 1..];
  }

  lemma FirstsRemoveAt<A, B>(b: seq<(A, B)>, j: nat)
    requires j < |b|
    ensures multiset(Firsts(b)) == multiset(Firsts(b[..j] + b[j + 1..])) + multiset{b[j].0}
  {
    assert Firsts(b) == Firsts(b[..j]) + [b[j].0] + Firsts(b[j + 1..]);
    FirstsAppend(b[..j], b[j + 1..]);
  }

  lemma FirstsTail<A, B>(a: seq<(A, B)>)
    requires a != []
    ensures multiset(Firsts(a)) == multiset(Firsts(a[1..])) + multiset{a[0].0}
  {
    assert Firsts(a) == [a[0].0] + Firsts(a[1..]);
  }

  lemma IndexOf<T>(x: T, b: seq<T>) returns (j: nat)
    requires x in multiset(b)
    ensures j < |b| && b[j] == x
  {
    assert x in b;
    j :| 0 <= j < |b| && b[j] == x;
  }

  /** Projecting two permutations of each other gives permutations of each other. */
  lemma {:induction false} MapFirstOfPermutation<A, B>(a: seq<(A, B)>, b: seq<(A, B)>)
    requires multiset(a) == multiset(b)
    ensures multiset(Firsts(a)) == multiset(Firsts(b))
  {
    if a == [] {
      assert |b| == |multiset(b)| == 0;
    } else {
      var j := IndexOf(a[0], b);
      var b' := b[..j] + b[j + 1..];
      RestsPermuted(a, b, j);
      MapFirstOfPermutation(a[1..], b');
      FirstsStep(a, b, j);
    }
  }

  /** Taking matching heads out of two permutations leaves permutations. */
  lemma RestsPermuted<T>(a: seq<T>, b: seq<T>, j: nat)
    requires multiset(a) == multiset(b) && a != [] && j < |b| && b[j] == a[0]
    ensures multiset(a[1..]) == multiset(b[..j] + b[j + 1..])
  {
    RemoveAt(b, j);
    assert a == [a[0]] + a[1..];
  }

  /** The inductive step: the heads match and the rests are permutations. */
  lemma FirstsStep<A, B>(a: seq<(A, B)>, b: seq<(A, B)>, j: nat)
    requires a != [] && j < |b| && b[j] == a[0]
    requires multiset(Firsts(a[1..])) == multiset(Firsts(b[..j] + b[j + 1..]))
    ensures multiset(Firsts(a)) == multiset(Firsts(b))
  {
    FirstsRemoveAt(b, j);
    FirstsTail(a);
  }
}
