/** The records of the mood ledger (the model/ package). Kotlin `Float` is
    `real`, `Int` and `Long` are `int`, a `LocalDate` is a day number. */
module Model {

  import opened Wrappers

  /** A calendar day, counted in days (`LocalDate`); `d + 1` is `plusDays(1)`. */
  type Day = int

  /** The score a day has before any event moves it. */
  const Baseline: real := 5.0

  /** One logged event: how much it moved the day (`delta`) and its tags. */
  datatype LedgerEntry = LedgerEntry(
    id: int,
    timestamp: int,
    delta: real,
    tags: seq<string>,
    note: string,
    title: string,
    feeling: string)

  /** Running totals for one tag. */
  datatype TagStats = TagStats(tag: string, count: int, totalDelta: real) {

    /** `average`: the mean delta, or 0 when nothing was counted. */
    function Average(): (avg: real)
      ensures count == 0 ==> avg == 0.0
      ensures count != 0 ==> avg * count as real == totalDelta
      ensures count == 1 ==> avg == totalDelta
      ensures count > 0 ==> (avg > 0.0 <==> totalDelta > 0.0) && (avg < 0.0 <==> totalDelta < 0.0)
    {
      if count == 0 then 0.0 else totalDelta / count as real
    }
  }

  datatype DailyReflection = DailyReflection(date: string, note: string, drift: real)

  datatype WeeklyReflection = WeeklyReflection(weekStart: string, note: string)

  datatype MonthlyReflection = MonthlyReflection(monthKey: string, note: string)

  datatype DailyMoodPoint = DailyMoodPoint(date: Day, score: real)

  datatype InfluenceOverride = InfluenceOverride(
    tag: string,
    kind: Option<string>,
    subType: Option<string>,
    description: Option<string>,
    imageResId: Option<int>,
    imagePath: Option<string>)

  /** The sum of the entries' deltas, from the first entry on. */
  function SumDeltas(entries: seq<LedgerEntry>): (sum: real)
    ensures (forall k :: 0 <= k < |entries| ==> entries[k].delta >= 0.0) ==> sum >= 0.0
    ensures (forall k :: 0 <= k < |entries| ==> entries[k].delta <= 0.0) ==> sum <= 0.0
  {
    if entries == [] then 0.0 else SumDeltas(entries[..|entries| - 1]) + entries[|entries| - 1].delta
  }

  lemma {:induction false} SumDeltasAppend(a: seq<LedgerEntry>, b: seq<LedgerEntry>)
    ensures SumDeltas(a + b) == SumDeltas(a) + SumDeltas(b)
  {
    if b != [] {
      assert (a + b)[..|a + b| - 1] == a + b[..|b| - 1];
      SumDeltasAppend(a, b[..|b| - 1]);
    } else {
      assert a + b == a;
    }
  }

  /** The sum does not depend on the order of the entries. */
  lemma {:induction false} SumDeltasPermutation(a: seq<LedgerEntry>, b: seq<LedgerEntry>)
    requires multiset(a) == multiset(b)
    ensures SumDeltas(a) == SumDeltas(b)
    decreases |a|
  {
    if a != [] {
      var x := a[|a| - 1];
      assert x in multiset(b);
      assert x in b;
      var j :| 0 <= j < |b| && b[j] == x;
      var a' := a[..|a| - 1];
      var b' := b[..j] + b[j + 1..];
      assert a == a' + [x];
      assert b == b[..j] + [x] + b[j + 1..];
      assert multiset(a') == multiset(a) - multiset{x};
      assert multiset(b') == multiset(b) - multiset{x};
      SumDeltasPermutation(a', b');
      SumDeltasAppend(a', [x]);
      SumDeltasAppend(b[..j] + [x], b[j + 1..]);
      SumDeltasAppend(b[..j], [x]);
      SumDeltasAppend(b[..j], b[j + 1..]);
    } else {
      assert |b| == |multiset(b)| == 0;
    }
  }

  /** The score of a day: baseline plus every event's delta, plus the drift of
      the day's reflection when one was written. */
  function DayScore(baseline: real, entries: seq<LedgerEntry>, reflection: Option<DailyReflection>): (score: real)
    ensures reflection.None? ==> score - baseline == SumDeltas(entries)
    ensures reflection.Some? ==> score - baseline - SumDeltas(entries) == reflection.value.drift
  {
    var computed := baseline + SumDeltas(entries);
    if reflection.Some? then computed + reflection.value.drift else computed
  }

  /** `sum()` of a list of scores, from the first on. */
  function Sum(s: seq<real>): real {
    if s == [] then 0.0 else Sum(s[..|s| - 1]) + s[|s| - 1]
  }

  /** `average()`; every caller checks for an empty list first. */
  function Mean(s: seq<real>): (m: real)
    requires s != []
    ensures m * |s| as real == Sum(s)
  {
    Sum(s) / |s| as real
  }

  /** The scores of a list of points, in order. */
  function Scores(points: seq<DailyMoodPoint>): (r: seq<real>)
    ensures |r| == |points| && forall k :: 0 <= k < |points| ==> r[k] == points[k].score
  {
    seq(|points|, k requires 0 <= k < |points| => points[k].score)
  }

  lemma {:induction false} SumBounds(s: seq<real>, lo: real, hi: real)
    requires forall k :: 0 <= k < |s| ==> lo <= s[k] <= hi
    ensures |s| as real * lo <= Sum(s) <= |s| as real * hi
  {
    if s != [] {
      SumBounds(s[..|s| - 1], lo, hi);
    }
  }

  /** A mean lies between the smallest and the largest value averaged. */
  lemma MeanBounds(s: seq<real>, lo: real, hi: real)
    requires s != []
    requires forall k :: 0 <= k < |s| ==> lo <= s[k] <= hi
    ensures lo <= Mean(s) <= hi
  {
    SumBounds(s, lo, hi);
    var n := |s| as real;
    var m := Mean(s);
    assert (m - lo) * n >= 0.0;
    assert (hi - m) * n >= 0.0;
  }
}
