/** Angle primitives used by the ring physics and the seal drawing
    (util/InfluenceMath.kt). Kotlin `Float` is modelled as `real`. */
module InfluenceMath {

  import Sorting
  import opened Model

  /** Kotlin's conversion of a float to an integer: truncation toward zero. */
  function Trunc(x: real): (n: int)
    ensures x >= 0.0 ==> 0 <= n && n as real <= x < n as real + 1.0
    ensures x < 0.0 ==> n <= 0 && n as real - 1.0 < x <= n as real
  {
    if x >= 0.0 then x.Floor else -((-x).Floor)
  }

  const IntMin: int := -0x8000_0000
  const IntMax: int := 0x7FFF_FFFF

  /** `Float.toInt()` of a finite value: truncation toward zero, saturated to
      the 32-bit range. */
  function ToInt(x: real): (n: int)
    ensures IntMin <= n <= IntMax
    ensures IntMin <= Trunc(x) <= IntMax ==> n == Trunc(x)
  {
    var t := Trunc(x);
    if t < IntMin then IntMin else if t > IntMax then IntMax else t
  }

  /** Kotlin `x % 360f`: the remainder of truncated division, which has the
      sign of `x`. */
  function Rem360(x: real): (r: real)
    ensures x >= 0.0 ==> 0.0 <= r < 360.0
    ensures x < 0.0 ==> -360.0 < r <= 0.0
  {
    x - 360.0 * Trunc(x / 360.0) as real
  }

  /** The mathematical representative of `x` modulo 360, in [0, 360). */
  function Mod360(x: real): (r: real)
    ensures 0.0 <= r < 360.0
  {
    x - 360.0 * (x / 360.0).Floor as real
  }

  /** `Mod360` is determined by any decomposition `x == r + 360 k`. */
  lemma ModUnique(x: real, r: real, k: int)
    requires 0.0 <= r < 360.0 && x == r + 360.0 * k as real
    ensures Mod360(x) == r
  {
    assert x / 360.0 == r / 360.0 + k as real;
    assert (x / 360.0).Floor == k;
  }

  /** Adding whole turns does not change the representative. */
  lemma ModShift(x: real, k: int)
    ensures Mod360(x + 360.0 * k as real) == Mod360(x)
  {
    var f := (x / 360.0).Floor;
    ModUnique(x + 360.0 * k as real, Mod360(x), f + k);
  }

  /** Two reals whose difference is a whole number of turns share a representative. */
  lemma ModOfDifference(x: real, y: real)
    ensures Mod360(Mod360(x) - Mod360(y)) == Mod360(x - y)
  {
    var fx, fy := (x / 360.0).Floor, (y / 360.0).Floor;
    assert Mod360(x) - Mod360(y) == (x - y) + 360.0 * (fy - fx) as real;
    ModShift(x - y, fy - fx);
  }

  /** The representative of `-x`. */
  lemma ModNegate(x: real)
    ensures Mod360(-x) == if Mod360(x) == 0.0 then 0.0 else 360.0 - Mod360(x)
  {
    var f := (x / 360.0).Floor;
    if Mod360(x) == 0.0 {
      ModUnique(-x, 0.0, -f);
    } else {
      ModUnique(-x, 360.0 - Mod360(x), -f - 1);
    }
  }

  /** On a non-negative argument Kotlin's remainder is the representative. */
  lemma RemOfNonNegative(x: real)
    requires x >= 0.0
    ensures Rem360(x) == Mod360(x)
  {
    ModUnique(x, Rem360(x), Trunc(x / 360.0));
  }

  /** `normalizeAngle` (InfluenceMath.kt:24-25): the remainder, moved up by a
      turn, then the remainder again; always the representative in [0, 360). */
  function NormalizeAngle(a: real): (r: real)
    ensures 0.0 <= r < 360.0
    ensures r == Mod360(a)
  {
    var inner := Rem360(a) + 360.0;
    assert inner == a + 360.0 * (1 - Trunc(a / 360.0)) as real;
    ModShift(a, 1 - Trunc(a / 360.0));
    RemOfNonNegative(inner);
    Rem360(inner)
  }

  /** An angle already in [0, 360) is its own normal form. */
  lemma NormalizeFixesCanonical(a: real)
    requires 0.0 <= a < 360.0
    ensures NormalizeAngle(a) == a
  {
    ModUnique(a, a, 0);
  }

  lemma {:induction false} NormalizeIdempotent(a: real)
    ensures NormalizeAngle(NormalizeAngle(a)) == NormalizeAngle(a)
  {
    NormalizeFixesCanonical(NormalizeAngle(a));
  }

  lemma {:induction false} NormalizePeriodic(a: real, k: int)
    ensures NormalizeAngle(a + 360.0 * k as real) == NormalizeAngle(a)
  {
    ModShift(a, k);
  }

  /** Folds a representative in [0, 360) onto [0, 180]. */
  function Fold(t: real): (folded: real)
    ensures 0.0 <= t < 360.0 ==> 0.0 <= folded <= 180.0
    ensures 0.0 <= t <= 180.0 ==> folded == t
  {
    if t > 180.0 then 360.0 - t else t
  }

  /** `angularDistance` (InfluenceMath.kt:19-22): the remainder of the
      absolute difference, folded onto [0, 180]. */
  function AngularDistance(a: real, b: real): (d: real)
    ensures 0.0 <= d <= 180.0
  {
    var diff := Rem360(Abs(a - b));
    if diff > 180.0 then 360.0 - diff else diff
  }

  function Abs(x: real): (r: real)
    ensures r >= 0.0 && (r == x || r == -x)
  {
    if x < 0.0 then -x else x
  }

  /** The distance only depends on the difference modulo a turn. */
  lemma {:induction false} DistanceIsFoldedDifference(a: real, b: real)
    ensures AngularDistance(a, b) == Fold(Mod360(a - b))
  {
    RemOfNonNegative(Abs(a - b));
    if a - b < 0.0 {
      ModNegate(b - a);
      assert -(b - a) == a - b;
    }
  }

  lemma {:induction false} DistanceOfSelf(a: real)
    ensures AngularDistance(a, a) == 0.0
  {
    RemOfNonNegative(0.0);
    ModUnique(0.0, 0.0, 0);
  }

  lemma {:induction false} DistanceSymmetric(a: real, b: real)
    ensures AngularDistance(a, b) == AngularDistance(b, a)
  {
    assert Abs(a - b) == Abs(b - a);
  }

  lemma {:induction false} DistanceIgnoresTurns(a: real, b: real, k: int, m: int)
    ensures AngularDistance(a + 360.0 * k as real, b + 360.0 * m as real) == AngularDistance(a, b)
  {
    DistanceIsFoldedDifference(a + 360.0 * k as real, b + 360.0 * m as real);
    DistanceIsFoldedDifference(a, b);
    assert (a + 360.0 * k as real) - (b + 360.0 * m as real) == (a - b) + 360.0 * (k - m) as real;
    ModShift(a - b, k - m);
  }

  /** Wrapping both angles first does not change their distance. */
  lemma {:induction false} DistanceOfNormalized(p: real, q: real)
    ensures AngularDistance(NormalizeAngle(p), NormalizeAngle(q)) == AngularDistance(p, q)
  {
    DistanceIsFoldedDifference(NormalizeAngle(p), NormalizeAngle(q));
    DistanceIsFoldedDifference(p, q);
    ModOfDifference(p, q);
  }

  /** The distance between two wrapped angles is the folded difference of
      the angles before wrapping. */
  lemma DistanceOfNormalizedIsFolded(p: real, q: real)
    ensures AngularDistance(NormalizeAngle(p), NormalizeAngle(q)) == Fold(Mod360(p - q))
  {
    DistanceIsFoldedDifference(p, q);
    DistanceOfNormalized(p, q);
  }

  /** Subtracting congruent values gives congruent results. */
  lemma ModCongruent(u: real, v: real, c: real)
    requires Mod360(u) == Mod360(v)
    ensures Mod360(c - u) == Mod360(c - v)
  {
    var fu, fv := (u / 360.0).Floor, (v / 360.0).Floor;
    assert c - u == (c - v) + 360.0 * (fv - fu) as real;
    ModShift(c - v, fv - fu);
  }

  /** A separation of at most half a turn, in either direction, is its own distance. */
  lemma FoldOfHalfTurn(m: real)
    requires 0.0 <= m <= 180.0
    ensures Fold(Mod360(m)) == m && Fold(Mod360(-m)) == m
  {
    ModUnique(m, m, 0);
    ModNegate(m);
  }

  /** The signed delta of the physics step (SealPhysicsEngine.kt:41): the
      remainder of `b - a` plus one and a half turns, less half a turn; the
      signed shortest rotation from `a` to `b`. */
  function SignedDelta(a: real, b: real): (d: real)
    ensures b - a + 540.0 >= 0.0 ==> -180.0 <= d < 180.0
  {
    Rem360(b - a + 540.0) - 180.0
  }

  /** For angles in [0, 360) the signed delta lies in [-180, 180), is the
      difference `b - a` modulo a turn, and its magnitude is the distance. */
  lemma {:induction false} SignedDeltaOfCanonical(a: real, b: real)
    requires 0.0 <= a < 360.0 && 0.0 <= b < 360.0
    ensures -180.0 <= SignedDelta(a, b) < 180.0
    ensures Mod360(SignedDelta(a, b)) == Mod360(b - a)
    ensures Abs(SignedDelta(a, b)) == AngularDistance(a, b)
  {
    var d := b - a;
    if d < -180.0 {
      RemAt(d + 540.0, d + 180.0 + 360.0, 0);
      ModShift(d, 1);
      RemAt(Abs(a - b), -d, 0);
    } else if d < 180.0 {
      RemAt(d + 540.0, d + 180.0, 1);
      RemAt(Abs(a - b), Abs(d), 0);
    } else {
      RemAt(d + 540.0, d - 180.0, 2);
      ModShift(d, -1);
      RemAt(Abs(a - b), d, 0);
    }
  }

  /** Kotlin's remainder of a non-negative `x == r + 360 k` is `r`. */
  lemma RemAt(x: real, r: real, k: int)
    requires x >= 0.0 && 0.0 <= r < 360.0 && x == r + 360.0 * k as real
    ensures Rem360(x) == r
  {
    RemOfNonNegative(x);
    ModUnique(x, r, k);
  }

  /** Moving `a` by `x` (|x| < 180) is seen as a signed delta of exactly `x`. */
  lemma {:induction false} SignedDeltaOfShift(a: real, x: real)
    requires 0.0 <= a < 360.0 && -180.0 <= x < 180.0
    ensures SignedDelta(a, NormalizeAngle(a + x)) == x
  {
    var c := NormalizeAngle(a + x);
    RemOfNonNegative(c - a + 540.0);
    var f := ((a + x) / 360.0).Floor;
    assert c - a + 540.0 == (x + 180.0) + 360.0 * (1 - f) as real;
    ModUnique(c - a + 540.0, x + 180.0, 1 - f);
  }

  /** `impactOrderIndices` (InfluenceMath.kt:8-17): indices of the entries,
      stably sorted by delta, largest first. */
  function ImpactOrderIndices(entries: seq<LedgerEntry>): (order: seq<nat>)
    ensures |order| == |entries|
  {
    var pairs := IndexedDeltas(entries);
    Sorting.Firsts(Sorting.SortBy(pairs, ByDeltaDescending))
  }

  /** Pairs each entry's index with its delta. */
  function IndexedDeltas(entries: seq<LedgerEntry>): (pairs: seq<(nat, real)>)
    ensures |pairs| == |entries|
    ensures forall k :: 0 <= k < |pairs| ==> pairs[k] == (k, entries[k].delta)
  {
    seq(|entries|, k requires 0 <= k < |entries| => (k as nat, entries[k].delta))
  }

  /** The descending order on deltas, as a strict "goes before" relation. */
  function ByDeltaDescending(p: (nat, real), q: (nat, real)): bool {
    p.1 > q.1
  }

  /** Ties are broken by the original index: the position relation of the input. */
  function ByIndex(p: (nat, real), q: (nat, real)): bool {
    p.0 < q.0
  }

  lemma ByDeltaDescendingIsWeakOrder()
    ensures Sorting.StrictWeakOrder(ByDeltaDescending)
  {
  }

  /** The result is a permutation of 0..n-1, its deltas are non-increasing, and
      indices with equal deltas keep their original (ascending) order. */
  lemma {:induction false} ImpactOrderIsStableDescending(entries: seq<LedgerEntry>)
    ensures |ImpactOrderIndices(entries)| == |entries|
    ensures multiset(ImpactOrderIndices(entries)) == multiset(Sorting.Range(|entries|))
    ensures forall p, q :: 0 <= p < q < |entries| ==>
      var order := ImpactOrderIndices(entries);
      order[p] < |entries| && order[q] < |entries| &&
      (entries[order[p]].delta > entries[order[q]].delta ||
       (entries[order[p]].delta == entries[order[q]].delta && order[p] < order[q]))
  {
    var pairs := IndexedDeltas(entries);
    var sorted := Sorting.SortBy(pairs, ByDeltaDescending);
    ByDeltaDescendingIsWeakOrder();
    Sorting.SortByIsStable(pairs, ByDeltaDescending, ByIndex);
    Sorting.MapFirstOfPermutation(sorted, pairs);
    assert Sorting.Firsts(pairs) == Sorting.Range(|entries|);
    forall k | 0 <= k < |sorted|
      ensures sorted[k] in multiset(pairs)
      ensures sorted[k].1 == entries[sorted[k].0].delta && sorted[k].0 < |entries|
    {
      assert sorted[k] in multiset(sorted);
      var j :| 0 <= j < |pairs| && pairs[j] == sorted[k];
    }
  }
}
