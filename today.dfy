/** The Today screen (MainActivity.kt): the day's entries and score, the
    reflection drift, the tag ordering and colours, entry upsert and delete,
    and the month calendar. */
module Today {

  import opened Wrappers
  import opened Model
  import opened Text
  import opened LedgerStore
  import InfluenceMath
  import Sorting

  /* ---------------- distinct, in order of first occurrence ---------------- */

  /** The position of the first `x` in `s`, or `|s|` when there is none. */
  function FirstIndex<T(==)>(s: seq<T>, x: T): (i: nat)
    ensures i <= |s|
    ensures i < |s| <==> x in s
    ensures i < |s| ==> s[i] == x && x !in s[..i]
  {
    if s == [] then 0
    else if s[0] == x then 0
    else
      var i := FirstIndex(s[1..], x) + 1;
      assert i < |s| ==> s[..i] == [s[0]] + s[1..][..i - 1];
      assert i == |s| ==> s == [s[0]] + s[1..];
      i
  }

  lemma FirstIndexOfPrefix<T>(s: seq<T>, y: T, x: T)
    requires x in s
    ensures FirstIndex(s + [y], x) == FirstIndex(s, x)
  {
    var i := FirstIndex(s, x);
    var j := FirstIndex(s + [y], x);
    assert (s + [y])[i] == x;
    assert (s + [y])[..i] == s[..i];
  }

  /** `distinct()`: the first occurrence of every element, in order. */
  function Distinct<T(==,!new)>(s: seq<T>): (d: seq<T>)
    ensures forall x :: x in d <==> x in s
    ensures forall p, q :: 0 <= p < q < |d| ==> d[p] != d[q]
    ensures forall p, q :: 0 <= p < q < |d| ==> FirstIndex(s, d[p]) < FirstIndex(s, d[q])
  {
    if s == [] then []
    else
      var init := s[..|s| - 1];
      var y := s[|s| - 1];
      var d := Distinct(init);
      assert s == init + [y];
      forall x | x in init
        ensures FirstIndex(s, x) == FirstIndex(init, x)
      {
        FirstIndexOfPrefix(init, y, x);
      }
      if y in d then d
      else
        assert FirstIndex(s, y) == |init| by {
          assert s[|init|] == y;
          assert y !in s[..|init|];
        }
        d + [y]
  }

  /* ---------------- orderTagsByImpact ---------------- */

  /** The tag's average, or 0 when the tag has no stats. */
  function AverageOf(tag: string, stats: map<string, TagStats>): real {
    if tag in stats then stats[tag].Average() else 0.0
  }

  /** Pairs each tag with its average. */
  function Scored(tags: seq<string>, stats: map<string, TagStats>): (pairs: seq<(string, real)>)
    ensures |pairs| == |tags|
    ensures forall k :: 0 <= k < |tags| ==> pairs[k] == (tags[k], AverageOf(tags[k], stats))
  {
    seq(|tags|, k requires 0 <= k < |tags| => (tags[k], AverageOf(tags[k], stats)))
  }

  function ByAverageDescending(p: (string, real), q: (string, real)): bool {
    p.1 > q.1
  }

  /** `orderTagsByImpact`: the day's distinct tags, highest average first;
      a tag without stats counts as 0, and ties keep first-occurrence order. */
  function OrderTagsByImpact(todaysTags: seq<string>, stats: map<string, TagStats>): (ordered: seq<string>)
    ensures |ordered| == |Distinct(todaysTags)|
  {
    Sorting.Firsts(Sorting.SortBy(Scored(Distinct(todaysTags), stats), ByAverageDescending))
  }

  lemma OrderTagsByImpactSpec(todaysTags: seq<string>, stats: map<string, TagStats>)
    ensures var r := OrderTagsByImpact(todaysTags, stats);
      && (forall x :: x in r <==> x in todaysTags)
      && (forall p, q :: 0 <= p < q < |r| ==> r[p] != r[q])
      && (forall p, q :: 0 <= p < q < |r| ==> AverageOf(r[p], stats) >= AverageOf(r[q], stats))
      && (forall p, q :: 0 <= p < q < |r| && AverageOf(r[p], stats) == AverageOf(r[q], stats) ==>
            FirstIndex(todaysTags, r[p]) < FirstIndex(todaysTags, r[q]))
  {
    var d := Distinct(todaysTags);
    var sorted := Sorting.SortBy(Scored(d, stats), ByAverageDescending);
    var r := OrderTagsByImpact(todaysTags, stats);
    SortedScoresAreAverages(d, stats);
    forall x
      ensures x in r <==> x in todaysTags
    {
      SameTags(d, stats, x);
    }
    forall p, q | 0 <= p < q < |r|
      ensures r[p] != r[q]
      ensures AverageOf(r[p], stats) >= AverageOf(r[q], stats)
      ensures AverageOf(r[p], stats) == AverageOf(r[q], stats) ==>
            FirstIndex(todaysTags, r[p]) < FirstIndex(todaysTags, r[q])
    {
      assert |r| == |sorted| && r[p] == sorted[p].0 && r[q] == sorted[q].0;
      SortedScoresAreStable(todaysTags, stats, p, q);
    }
  }

  /** Every pair in the sorted list still carries its tag's average. */
  lemma SortedScoresAreAverages(d: seq<string>, stats: map<string, TagStats>)
    ensures var sorted := Sorting.SortBy(Scored(d, stats), ByAverageDescending);
      forall k :: 0 <= k < |sorted| ==> sorted[k].1 == AverageOf(sorted[k].0, stats)
  {
    var pairs := Scored(d, stats);
    var sorted := Sorting.SortBy(pairs, ByAverageDescending);
    forall k | 0 <= k < |sorted|
      ensures sorted[k].1 == AverageOf(sorted[k].0, stats)
    {
      assert sorted[k] in multiset(pairs);
    }
  }

  /** The sort is stable with respect to first occurrence in the day's tags. */
  lemma SortedScoresAreStable(todaysTags: seq<string>, stats: map<string, TagStats>, p: nat, q: nat)
    requires p < q < |Distinct(todaysTags)|
    ensures var sorted := Sorting.SortBy(Scored(Distinct(todaysTags), stats), ByAverageDescending);
        sorted[p].1 > sorted[q].1 ||
        (sorted[p].1 == sorted[q].1 && FirstIndex(todaysTags, sorted[p].0) < FirstIndex(todaysTags, sorted[q].0))
  {
    var pairs := Scored(Distinct(todaysTags), stats);
    var sorted := Sorting.SortBy(pairs, ByAverageDescending);
    var byFirst := (a: (string, real), b: (string, real)) => FirstIndex(todaysTags, a.0) < FirstIndex(todaysTags, b.0);
    assert Sorting.StrictWeakOrder(ByAverageDescending);
    Sorting.SortByIsStable(pairs, ByAverageDescending, byFirst);
    assert Sorting.Before(sorted[p], sorted[q], ByAverageDescending, byFirst);
  }

  /** Sorting keeps the set of tags. */
  lemma SameTags(d: seq<string>, stats: map<string, TagStats>, x: string)
    ensures x in Sorting.Firsts(Sorting.SortBy(Scored(d, stats), ByAverageDescending)) <==> x in d
  {
    var pairs := Scored(d, stats);
    var sorted := Sorting.SortBy(pairs, ByAverageDescending);
    var r := Sorting.Firsts(sorted);
    Sorting.MapFirstOfPermutation(sorted, pairs);
    assert Sorting.Firsts(pairs) == d;
    assert x in r <==> x in multiset(r);
    assert x in d <==> x in multiset(d);
  }

  /* ---------------- feelingEmoji ---------------- */

  /** `feelingEmoji`: the emoji of a feeling, matched ignoring case, with a
      neutral dot for anything not listed. */
  function FeelingEmoji(feeling: string): (emoji: string)
    ensures emoji == "•" <==> LowerStr(feeling) !in KnownFeelings
  {
    match LowerStr(feeling)
    case "excited" => "🤩"
    case "happy" => "🙂"
    case "content" => "😌"
    case "hopeful" => "🌱"
    case "anxious" => "😰"
    case "overwhelmed" => "😵‍💫"
    case "sad" => "😞"
    case "angry" => "😠"
    case "embarrassed" => "😳"
    case _ => "•"
  }

  const KnownFeelings: set<string> :=
    {"excited", "happy", "content", "hopeful", "anxious", "overwhelmed", "sad", "angry", "embarrassed"}

  /** Case does not matter. */
  lemma FeelingEmojiIgnoresCase(a: string, b: string)
    requires EqualsIgnoreCase(a, b)
    ensures FeelingEmoji(a) == FeelingEmoji(b)
  {
  }

  /** "Frustrated" is offered by the entry sheet but has no emoji of its own. */
  lemma FrustratedShowsNeutralDot()
    ensures FeelingEmoji("Frustrated") == "•"
  {
    assert LowerStr("Frustrated") == "frustrated";
  }

  /* ---------------- deltaLabel ---------------- */

  /** `deltaLabel`: an arrow for the sign and the magnitude, rendered by
      `fmt2` (`"%.2f".format`, supplied by the caller). */
  function DeltaLabel(delta: real, fmt2: real -> string): (text: string)
    ensures |text| > 0
    ensures text[0] == '▲' <==> delta > 0.0
    ensures text[0] == '▼' <==> delta < 0.0
    ensures delta != 0.0 ==> text == [text[0], ' '] + fmt2(InfluenceMath.Abs(delta))
    ensures delta == 0.0 ==> text == "— 0.00"
  {
    if delta > 0.0 then "▲ " + fmt2(delta)
    else if delta < 0.0 then "▼ " + fmt2(InfluenceMath.Abs(delta))
    else "— 0.00"
  }

  /** Opposite deltas show the same number under opposite arrows. */
  lemma DeltaLabelMirror(delta: real, fmt2: real -> string)
    requires delta != 0.0
    ensures DeltaLabel(-delta, fmt2)[1..] == DeltaLabel(delta, fmt2)[1..]
    ensures DeltaLabel(-delta, fmt2)[0] != DeltaLabel(delta, fmt2)[0]
  {
    assert InfluenceMath.Abs(-delta) == InfluenceMath.Abs(delta);
  }

  /* ---------------- colours ---------------- */

  /** A Compose colour, channels in [0, 1]. */
  datatype Rgba = Rgba(red: real, green: real, blue: real, alpha: real)

  /** An Android colour int, split into its 8-bit channels. */
  datatype Argb = Argb(alpha: int, red: int, green: int, blue: int)

  const ComposeWhite: Rgba := Rgba(1.0, 1.0, 1.0, 1.0)
  /** 0xFF4CAF50 and 0xFFE57373. */
  const ComposeGreen: Rgba := Rgba(76.0 / 255.0, 175.0 / 255.0, 80.0 / 255.0, 1.0)
  const ComposeRed: Rgba := Rgba(229.0 / 255.0, 115.0 / 255.0, 115.0 / 255.0, 1.0)

  const AndroidWhite: Argb := Argb(255, 255, 255, 255)

  /** `lerp(start, end, t)`. */
  function Lerp(start: real, end: real, t: real): (v: real)
    ensures t == 0.0 ==> v == start
    ensures t == 1.0 ==> v == end
    ensures 0.0 <= t <= 1.0 && start >= end ==> end <= v <= start
  {
    if 0.0 <= t <= 1.0 && start >= end then
      ScaleBetween(start - end, t);
      start + (end - start) * t
    else start + (end - start) * t
  }

  lemma ScaleBetween(a: real, t: real)
    requires a >= 0.0 && 0.0 <= t <= 1.0
    ensures 0.0 <= a * t <= a
  {
    assert a * t <= a * 1.0;
  }

  /** Clamps to [-2, 2]. */
  function Clamp2(x: real): (c: real)
    ensures -2.0 <= c <= 2.0
    ensures -2.0 <= x <= 2.0 ==> c == x
    ensures (c > 0.0 <==> x > 0.0) && (c == 0.0 <==> x == 0.0)
  {
    if x < -2.0 then -2.0 else if x > 2.0 then 2.0 else x
  }

  /** `deltaColor`: white for zero, fading towards green or red with the
      magnitude, fully saturated from a magnitude of 2. */
  function DeltaColor(delta: real): (c: Rgba)
    ensures delta == 0.0 ==> c == ComposeWhite
    ensures delta >= 2.0 ==> c == ComposeGreen
    ensures delta <= -2.0 ==> c == ComposeRed
    ensures delta > 0.0 ==> ComposeGreen.green <= c.green <= 1.0 && ComposeGreen.red <= c.red <= 1.0
    ensures delta < 0.0 ==> ComposeRed.green <= c.green <= 1.0 && ComposeRed.red <= c.red <= 1.0
    ensures c.alpha == 1.0
  {
    var clamped := Clamp2(delta);
    var t := InfluenceMath.Abs(clamped) / 2.0;
    if clamped == 0.0 then ComposeWhite
    else
      var target := if clamped > 0.0 then ComposeGreen else ComposeRed;
      Rgba(Lerp(1.0, target.red, t), Lerp(1.0, target.green, t), Lerp(1.0, target.blue, t), 1.0)
  }

  /** `tagImpactColor`: the same fade on 8-bit channels, truncated to whole
      numbers, at alpha 200; zero gives opaque white. */
  function TagImpactColor(avg: real): (c: Argb)
    ensures avg == 0.0 ==> c == AndroidWhite
    ensures avg >= 2.0 ==> c == Argb(200, 76, 175, 80)
    ensures avg <= -2.0 ==> c == Argb(200, 229, 115, 115)
    ensures avg > 0.0 ==> c.alpha == 200 && 76 <= c.red <= 255 && 175 <= c.green <= 255 && 80 <= c.blue <= 255
    ensures avg < 0.0 ==> c.alpha == 200 && 229 <= c.red <= 255 && 115 <= c.green <= 255 && 115 <= c.blue <= 255
  {
    var clamped := Clamp2(avg);
    var t := InfluenceMath.Abs(clamped) / 2.0;
    if clamped == 0.0 then AndroidWhite
    else
      var target := if clamped > 0.0 then Argb(255, 76, 175, 80) else Argb(255, 229, 115, 115);
      Argb(200,
        InfluenceMath.Trunc(Lerp(255.0, target.red as real, t)),
        InfluenceMath.Trunc(Lerp(255.0, target.green as real, t)),
        InfluenceMath.Trunc(Lerp(255.0, target.blue as real, t)))
  }

  /** `moodValueColor`: green, red or white by sign alone. */
  function MoodValueColor(value: real): (c: Rgba)
    ensures value > 0.0 ==> c == ComposeGreen
    ensures value < 0.0 ==> c == ComposeRed
    ensures value == 0.0 ==> c == ComposeWhite
  {
    if value > 0.0 then ComposeGreen else if value < 0.0 then ComposeRed else ComposeWhite
  }

  /** The same fade for both colour functions: a delta and its tag average
      of the same value land on the same side. */
  lemma ColoursAgreeOnSign(x: real)
    ensures (DeltaColor(x) == ComposeWhite) <==> (TagImpactColor(x) == AndroidWhite)
  {
    if x != 0.0 {
      assert TagImpactColor(x).alpha == 200;
      assert DeltaColor(x) != ComposeWhite by {
        var t := InfluenceMath.Abs(Clamp2(x)) / 2.0;
        assert t > 0.0;
        if x > 0.0 {
          assert DeltaColor(x).red == Lerp(1.0, 76.0 / 255.0, t);
        } else {
          assert DeltaColor(x).green == Lerp(1.0, 115.0 / 255.0, t);
        }
      }
    }
  }

  /* ---------------- score and drift ---------------- */

  /** The baseline plus the deltas of the entries, summed from the first on. */
  function ComputedScore(entries: seq<LedgerEntry>): (score: real)
    ensures score - Baseline == SumDeltas(entries)
  {
    Baseline + SumDeltas(entries)
  }

  /** `reflectionScore ?: computedScore`, and the drift shown beside it. */
  function FinalScore(reflectionScore: Option<real>, entries: seq<LedgerEntry>): (score: real)
    ensures reflectionScore.None? ==> score == ComputedScore(entries)
    ensures reflectionScore.Some? ==> score == reflectionScore.value
  {
    reflectionScore.GetOr(ComputedScore(entries))
  }

  function Drift(reflectionScore: Option<real>, entries: seq<LedgerEntry>): (drift: real)
    ensures reflectionScore.None? ==> drift == 0.0
    ensures ComputedScore(entries) + drift == FinalScore(reflectionScore, entries)
  {
    FinalScore(reflectionScore, entries) - ComputedScore(entries)
  }

  /** The reflection score after loading a day: the entries' score plus the
      stored drift, or nothing when no reflection was saved. */
  function ReloadedScore(p: Prefs, dayKey: string, entries: seq<LedgerEntry>): (score: Option<real>)
    ensures score.Some? <==> LoadDailyReflection(p, dayKey).Some?
    ensures score.Some? ==> score.value == DayScore(Baseline, entries, LoadDailyReflection(p, dayKey))
  {
    match LoadDailyReflection(p, dayKey)
    case Some(reflection) => Some(Baseline + SumDeltas(entries) + reflection.drift)
    case None => None
  }

  /** Saving a reflection score stores its drift from the computed score;
      reloading the day with the same entries gives back exactly that score. */
  lemma ReflectionRoundTrip(p: Prefs, dayKey: string, text: string, score: real, entries: seq<LedgerEntry>)
    ensures var q := SaveDailyReflection(p, DailyReflection(dayKey, text, score - ComputedScore(entries)));
      ReloadedScore(q, dayKey, entries) == Some(score)
  {
  }

  /** A reflection keeps its drift when the day's entries change later: the
      reloaded score moves by exactly the change in the entries' sum. */
  lemma DriftFollowsEntries(p: Prefs, dayKey: string, before: seq<LedgerEntry>, after: seq<LedgerEntry>)
    requires LoadDailyReflection(p, dayKey).Some?
    ensures ReloadedScore(p, dayKey, after).value - ReloadedScore(p, dayKey, before).value
         == SumDeltas(after) - SumDeltas(before)
  {
  }

  /* ---------------- upsert and delete ---------------- */

  /** Removes every entry with the id. */
  function RemoveById(entries: seq<LedgerEntry>, id: int): (r: seq<LedgerEntry>)
    ensures forall e :: e in r <==> e in entries && e.id != id
    ensures |r| <= |entries|
  {
    if entries == [] then []
    else
      var init := RemoveById(entries[..|entries| - 1], id);
      var last := entries[|entries| - 1];
      assert entries == entries[..|entries| - 1] + [last];
      if last.id == id then init else init + [last]
  }

  /** Removing by id keeps the other entries, each as often as before. */
  lemma {:induction false} RemoveByIdCounts(entries: seq<LedgerEntry>, id: int, e: LedgerEntry)
    ensures multiset(RemoveById(entries, id))[e] == if e.id == id then 0 else multiset(entries)[e]
  {
    if entries != [] {
      var init := entries[..|entries| - 1];
      RemoveByIdCounts(init, id, e);
      assert entries == init + [entries[|entries| - 1]];
    }
  }

  function ByTimestamp(a: LedgerEntry, b: LedgerEntry): bool {
    a.timestamp < b.timestamp
  }

  /** The entries other than the saved one's id, plus the saved entry, sorted by timestamp. */
  function Upsert(entries: seq<LedgerEntry>, saved: LedgerEntry): (r: seq<LedgerEntry>)
    ensures |r| == |RemoveById(entries, saved.id)| + 1
  {
    Sorting.SortBy(RemoveById(entries, saved.id) + [saved], ByTimestamp)
  }

  /** After an upsert the saved entry is the only one with its id and occurs
      once, every other entry is kept as often as before, and the list is
      ordered by timestamp. */
  lemma UpsertSpec(entries: seq<LedgerEntry>, saved: LedgerEntry)
    ensures var r := Upsert(entries, saved);
      && saved in r && multiset(r)[saved] == 1
      && (forall e :: e in r && e.id == saved.id ==> e == saved)
      && (forall e: LedgerEntry :: e.id != saved.id ==> multiset(r)[e] == multiset(entries)[e])
      && (forall p, q :: 0 <= p < q < |r| ==> r[p].timestamp <= r[q].timestamp)
  {
    var kept := RemoveById(entries, saved.id);
    var r := Upsert(entries, saved);
    assert multiset(r) == multiset(kept) + multiset{saved};
    RemoveByIdCounts(entries, saved.id, saved);
    forall e: LedgerEntry | e.id != saved.id
      ensures multiset(r)[e] == multiset(entries)[e]
    {
      RemoveByIdCounts(entries, saved.id, e);
    }
    forall e | e in r && e.id == saved.id
      ensures e == saved
    {
      assert e in multiset(r);
    }
    assert saved in multiset(r);
    assert Sorting.StrictWeakOrder(ByTimestamp);
    Sorting.SortByIsSorted(kept + [saved], ByTimestamp);
  }

  /** `onDelete`: every entry with the id goes, the rest stay in order. */
  lemma DeleteSpec(entries: seq<LedgerEntry>, toDelete: LedgerEntry)
    ensures var r := RemoveById(entries, toDelete.id);
      && (forall e :: e in r ==> e.id != toDelete.id)
      && (forall e: LedgerEntry :: e.id != toDelete.id ==> multiset(r)[e] == multiset(entries)[e])
  {
    forall e: LedgerEntry | e.id != toDelete.id
      ensures multiset(RemoveById(entries, toDelete.id))[e] == multiset(entries)[e]
    {
      RemoveByIdCounts(entries, toDelete.id, e);
    }
  }

  /* ---------------- the screen ---------------- */

  /** The screen's state: the day shown, its entries, the reflection score,
      the tag stats, and the store they are written to. */
  class TodayScreen {
    var activeDayKey: string
    var entries: seq<LedgerEntry>
    var reflectionScore: Option<real>
    var tagStats: map<string, TagStats>
    var store: Prefs

    /** Opening the screen on a day loads its entries, stats and reflection. */
    constructor (store: Prefs, dayKey: string)
      ensures this.store == store && activeDayKey == dayKey
      ensures entries == LoadEntriesForDay(store, dayKey)
      ensures tagStats == LoadTagStats(store)
      ensures reflectionScore == ReloadedScore(store, dayKey, entries)
      ensures ShowsStoredScore()
    {
      this.store := store;
      activeDayKey := dayKey;
      entries := LoadEntriesForDay(store, dayKey);
      tagStats := LoadTagStats(store);
      reflectionScore := ReloadedScore(store, dayKey, LoadEntriesForDay(store, dayKey));
    }

    /** Saving an entry from the sheet: upsert it, persist the day, fold the
        entry into the tag stats (replacing `previous`), and reload them. */
    method OnSaveEntry(saved: LedgerEntry, previous: Option<LedgerEntry>)
      modifies this
      ensures entries == Upsert(old(entries), saved)
      ensures var p := SaveEntriesForDay(old(store), activeDayKey, entries);
        store == SaveTagStats(p, ApplyEntry(LoadTagStats(p), saved, previous))
      ensures LoadEntriesForDay(store, activeDayKey) == entries
      ensures tagStats == LoadTagStats(store)
      ensures forall tag :: tag in tagStats ==> tagStats[tag].count > 0
      ensures activeDayKey == old(activeDayKey)
      ensures LoadDailyReflection(store, activeDayKey) == LoadDailyReflection(old(store), activeDayKey)
      ensures LoadDailyReflection(store, activeDayKey).Some? && entries != old(entries) ==>
        reflectionScore == ReloadedScore(store, activeDayKey, entries)
      ensures LoadDailyReflection(store, activeDayKey).None? || entries == old(entries) ==>
        reflectionScore == old(reflectionScore)
      ensures old(ShowsStoredScore()) ==> ShowsStoredScore()
    {
      var before := entries;
      entries := Upsert(entries, saved);
      store := SaveEntriesForDay(store, activeDayKey, entries);
      store := ApplyEntryToTagStats(store, saved, previous);
      tagStats := LoadTagStats(store);
      ReloadScore(before);
    }

    /** Deleting an entry: drop it by id, persist the day, take it out of the
        tag stats, and reload them. */
    method OnDelete(toDelete: LedgerEntry)
      modifies this
      ensures entries == RemoveById(old(entries), toDelete.id)
      ensures var p := SaveEntriesForDay(old(store), activeDayKey, entries);
        store == SaveTagStats(p, RemoveEntry(LoadTagStats(p), toDelete))
      ensures LoadEntriesForDay(store, activeDayKey) == entries
      ensures tagStats == LoadTagStats(store)
      ensures forall tag :: tag in tagStats ==> tagStats[tag].count > 0
      ensures activeDayKey == old(activeDayKey)
      ensures LoadDailyReflection(store, activeDayKey) == LoadDailyReflection(old(store), activeDayKey)
      ensures LoadDailyReflection(store, activeDayKey).Some? && entries != old(entries) ==>
        reflectionScore == ReloadedScore(store, activeDayKey, entries)
      ensures LoadDailyReflection(store, activeDayKey).None? || entries == old(entries) ==>
        reflectionScore == old(reflectionScore)
      ensures old(ShowsStoredScore()) ==> ShowsStoredScore()
    {
      var before := entries;
      entries := RemoveById(entries, toDelete.id);
      store := SaveEntriesForDay(store, activeDayKey, entries);
      store := RemoveEntryFromTagStats(store, toDelete);
      tagStats := LoadTagStats(store);
      ReloadScore(before);
    }

    /** The effect keyed on the entries and the day: when the entries differ
        from `before` and the day has a stored reflection, the score is
        recomputed from the entries and the stored drift; otherwise it stays. */
    method ReloadScore(before: seq<LedgerEntry>)
      modifies this
      ensures LoadDailyReflection(store, activeDayKey).Some? && entries != before ==>
        reflectionScore == ReloadedScore(store, activeDayKey, entries)
      ensures LoadDailyReflection(store, activeDayKey).None? || entries == before ==>
        reflectionScore == old(reflectionScore)
      ensures activeDayKey == old(activeDayKey) && entries == old(entries)
      ensures tagStats == old(tagStats) && store == old(store)
    {
      if entries != before {
        var reflection := LoadDailyReflection(store, activeDayKey);
        if reflection.Some? {
          reflectionScore := Some(Baseline + SumDeltas(entries) + reflection.value.drift);
        }
      }
    }

    /** The score shown is the one the store gives for the day's entries: none
        without a stored reflection, the entries' score plus the stored drift
        with one. Opening the screen establishes it and every action keeps it. */
    predicate ShowsStoredScore()
      reads this
    {
      reflectionScore == ReloadedScore(store, activeDayKey, entries)
    }

    /** Saving the daily reflection: the score is shown as is and its drift
        from the computed score is stored. */
    method OnSaveReflection(text: string, score: real)
      modifies this
      ensures reflectionScore == Some(score)
      ensures store == SaveDailyReflection(old(store), DailyReflection(activeDayKey, text, score - ComputedScore(entries)))
      ensures ReloadedScore(store, activeDayKey, entries) == Some(score)
      ensures entries == old(entries) && tagStats == old(tagStats) && activeDayKey == old(activeDayKey)
      ensures ShowsStoredScore()
    {
      reflectionScore := Some(score);
      store := SaveDailyReflection(store, DailyReflection(activeDayKey, text, score - ComputedScore(entries)));
      ReflectionRoundTrip(old(store), activeDayKey, text, score, entries);
    }
  }

  /* ---------------- month calendar ---------------- */

  /** The offset plus the days, rounded up to a multiple of 7: whole weeks covering the
      leading blanks and every day of the month. */
  function TotalCells(firstDayOffset: nat, daysInMonth: nat): (cells: nat)
    ensures cells % 7 == 0
    ensures firstDayOffset + daysInMonth <= cells < firstDayOffset + daysInMonth + 7
  {
    ((firstDayOffset + daysInMonth + 6) / 7) * 7
  }

  /** The calendar grid, week by week: the day number shown in each cell, or
      0 for a blank cell. */
  method CalendarCells(firstDayOffset: nat, daysInMonth: nat) returns (cells: seq<nat>)
    ensures |cells| == TotalCells(firstDayOffset, daysInMonth)
    ensures forall c :: 0 <= c < |cells| ==>
      cells[c] == (if 1 <= c - firstDayOffset + 1 <= daysInMonth then c - firstDayOffset + 1 else 0)
  {
    var totalCells := ((firstDayOffset + daysInMonth + 6) / 7) * 7;
    cells := [];
    var week := 0;
    while week < totalCells
      invariant week % 7 == 0 && week <= totalCells
      invariant |cells| == week
      invariant forall c :: 0 <= c < |cells| ==>
        cells[c] == (if 1 <= c - firstDayOffset + 1 <= daysInMonth then c - firstDayOffset + 1 else 0)
    {
      for dayIndex := 0 to 7
        invariant |cells| == week + dayIndex
        invariant forall c :: 0 <= c < |cells| ==>
          cells[c] == (if 1 <= c - firstDayOffset + 1 <= daysInMonth then c - firstDayOffset + 1 else 0)
      {
        var cellIndex := week + dayIndex;
        var dayNumber := cellIndex - firstDayOffset + 1;
        if 1 <= dayNumber <= daysInMonth {
          cells := cells + [dayNumber];
        } else {
          cells := cells + [0];
        }
      }
      week := week + 7;
    }
  }

  /** Every day of the month lands in exactly one cell. */
  lemma EachDayInOneCell(firstDayOffset: nat, daysInMonth: nat, cells: seq<nat>, day: nat)
    requires |cells| == TotalCells(firstDayOffset, daysInMonth)
    requires forall c :: 0 <= c < |cells| ==>
      cells[c] == (if 1 <= c - firstDayOffset + 1 <= daysInMonth then c - firstDayOffset + 1 else 0)
    requires 1 <= day <= daysInMonth
    ensures day + firstDayOffset - 1 < |cells| && cells[day + firstDayOffset - 1] == day
    ensures forall c :: 0 <= c < |cells| && cells[c] == day ==> c == day + firstDayOffset - 1
  {
  }

  /** A day cell can be picked when it has data or is today, and is not in
      the future. */
  function CanSelectDay(date: Day, today: Day, hasData: bool): (enabled: bool)
    ensures enabled ==> date <= today
    ensures date == today ==> enabled
  {
    (hasData || date == today) && !(date > today)
  }

  /** Months are counted as `12 * year + (month - 1)`. The "next" arrow only
      moves while the next month does not start after the current one. */
  function NextMonth(visibleMonth: int, currentMonth: int): (m: int)
    ensures visibleMonth < currentMonth ==> m == visibleMonth + 1
    ensures visibleMonth >= currentMonth ==> m == visibleMonth
  {
    var next := visibleMonth + 1;
    if !(next > currentMonth) then next else visibleMonth
  }

  /** Starting at or before the current month, no number of "next" clicks
      ever shows a future month. */
  lemma {:induction false} NextNeverPassesCurrent(visibleMonth: int, currentMonth: int, clicks: nat)
    requires visibleMonth <= currentMonth
    ensures Iterate(visibleMonth, currentMonth, clicks) <= currentMonth
    ensures clicks <= currentMonth - visibleMonth ==> Iterate(visibleMonth, currentMonth, clicks) == visibleMonth + clicks
  {
    if clicks > 0 {
      NextNeverPassesCurrent(visibleMonth, currentMonth, clicks - 1);
    }
  }

  function Iterate(visibleMonth: int, currentMonth: int, clicks: nat): int {
    if clicks == 0 then visibleMonth else NextMonth(Iterate(visibleMonth, currentMonth, clicks - 1), currentMonth)
  }
}
