/** The persistent store of the ledger (data/LedgerStore.kt). The preferences
    file is one value, `Prefs`, holding one map per stored key; a missing key
    reads as an empty map. Loads are functions of that value, saves return the
    new value. */
module LedgerStore {

  import opened Wrappers
  import opened Model

  datatype Prefs = Prefs(
    entriesByDay: map<string, seq<LedgerEntry>>,
    reflectionsByDay: map<string, DailyReflection>,
    weeklyReflections: map<string, WeeklyReflection>,
    monthlyReflections: map<string, MonthlyReflection>,
    tagStats: map<string, TagStats>,
    ballLayouts: map<string, seq<real>>,
    influenceOverrides: map<string, InfluenceOverride>)

  /** A store nothing has been written to. */
  const Empty: Prefs := Prefs(map[], map[], map[], map[], map[], map[], map[])

  /* ---------------- entries ---------------- */

  /** A day never stored reads as no entries. */
  function LoadEntriesForDay(p: Prefs, dayKey: string): (entries: seq<LedgerEntry>)
    ensures dayKey !in p.entriesByDay ==> entries == []
    ensures dayKey in p.entriesByDay ==> entries == p.entriesByDay[dayKey]
  {
    if dayKey in p.entriesByDay then p.entriesByDay[dayKey] else []
  }

  /** Storing a day: the day's list is replaced, nothing else moves. */
  function SaveEntriesForDay(p: Prefs, dayKey: string, entries: seq<LedgerEntry>): (q: Prefs)
    ensures LoadEntriesForDay(q, dayKey) == entries
    ensures forall k :: k != dayKey ==> LoadEntriesForDay(q, k) == LoadEntriesForDay(p, k)
    ensures q.(entriesByDay := p.entriesByDay) == p
  {
    p.(entriesByDay := p.entriesByDay[dayKey := entries])
  }

  /** The days that hold at least one entry. */
  function LoadDaysWithEntries(p: Prefs): (days: set<string>)
    ensures forall k :: k in days <==> LoadEntriesForDay(p, k) != []
  {
    set k | k in p.entriesByDay && p.entriesByDay[k] != []
  }

  /** Saving an empty list for a day takes the day out of the days with
      entries; saving a non-empty list puts it in. Other days are unaffected. */
  lemma {:induction false} DaysWithEntriesAfterSave(p: Prefs, dayKey: string, entries: seq<LedgerEntry>)
    ensures dayKey in LoadDaysWithEntries(SaveEntriesForDay(p, dayKey, entries)) <==> entries != []
    ensures LoadDaysWithEntries(SaveEntriesForDay(p, dayKey, entries)) - {dayKey}
         == LoadDaysWithEntries(p) - {dayKey}
  {
    var q := SaveEntriesForDay(p, dayKey, entries);
    forall k | k != dayKey
      ensures k in LoadDaysWithEntries(q) <==> k in LoadDaysWithEntries(p)
    {
      assert LoadEntriesForDay(q, k) == LoadEntriesForDay(p, k);
    }
  }

  /* ---------------- reflections ---------------- */

  /** A day without a reflection reads as none. */
  function LoadDailyReflection(p: Prefs, dayKey: string): (reflection: Option<DailyReflection>)
    ensures reflection.None? <==> dayKey !in p.reflectionsByDay
    ensures reflection.Some? ==> reflection.value == p.reflectionsByDay[dayKey]
  {
    if dayKey in p.reflectionsByDay then Some(p.reflectionsByDay[dayKey]) else None
  }

  /** A daily reflection is filed under its own `date`. */
  function SaveDailyReflection(p: Prefs, reflection: DailyReflection): (q: Prefs)
    ensures LoadDailyReflection(q, reflection.date) == Some(reflection)
    ensures forall k :: k != reflection.date ==> LoadDailyReflection(q, k) == LoadDailyReflection(p, k)
    ensures q.(reflectionsByDay := p.reflectionsByDay) == p
  {
    p.(reflectionsByDay := p.reflectionsByDay[reflection.date := reflection])
  }

  function LoadWeeklyReflection(p: Prefs, weekStart: string): Option<WeeklyReflection> {
    if weekStart in p.weeklyReflections then Some(p.weeklyReflections[weekStart]) else None
  }

  /** A weekly reflection is filed under its `weekStart`. */
  function SaveWeeklyReflection(p: Prefs, reflection: WeeklyReflection): (q: Prefs)
    ensures LoadWeeklyReflection(q, reflection.weekStart) == Some(reflection)
    ensures forall k :: k != reflection.weekStart ==> LoadWeeklyReflection(q, k) == LoadWeeklyReflection(p, k)
    ensures q.(weeklyReflections := p.weeklyReflections) == p
  {
    p.(weeklyReflections := p.weeklyReflections[reflection.weekStart := reflection])
  }

  function LoadMonthlyReflection(p: Prefs, monthKey: string): Option<MonthlyReflection> {
    if monthKey in p.monthlyReflections then Some(p.monthlyReflections[monthKey]) else None
  }

  /** A monthly reflection is filed under its `monthKey` (yyyy-MM). */
  function SaveMonthlyReflection(p: Prefs, reflection: MonthlyReflection): (q: Prefs)
    ensures LoadMonthlyReflection(q, reflection.monthKey) == Some(reflection)
    ensures forall k :: k != reflection.monthKey ==> LoadMonthlyReflection(q, k) == LoadMonthlyReflection(p, k)
    ensures q.(monthlyReflections := p.monthlyReflections) == p
  {
    p.(monthlyReflections := p.monthlyReflections[reflection.monthKey := reflection])
  }

  /* ---------------- ring layout and card overrides ---------------- */

  function LoadBallLayout(p: Prefs, dayKey: string): Option<seq<real>> {
    if dayKey in p.ballLayouts then Some(p.ballLayouts[dayKey]) else None
  }

  function SaveBallLayout(p: Prefs, dayKey: string, angles: seq<real>): (q: Prefs)
    ensures LoadBallLayout(q, dayKey) == Some(angles)
    ensures forall k :: k != dayKey ==> LoadBallLayout(q, k) == LoadBallLayout(p, k)
    ensures q.(ballLayouts := p.ballLayouts) == p
  {
    p.(ballLayouts := p.ballLayouts[dayKey := angles])
  }

  function LoadInfluenceOverrides(p: Prefs): map<string, InfluenceOverride> {
    p.influenceOverrides
  }

  /** An override is filed under its tag, replacing an earlier one for that tag. */
  function SaveInfluenceOverride(p: Prefs, override: InfluenceOverride): (q: Prefs)
    ensures override.tag in LoadInfluenceOverrides(q)
    ensures LoadInfluenceOverrides(q)[override.tag] == override
    ensures forall k :: k != override.tag ==>
      (k in LoadInfluenceOverrides(q) <==> k in LoadInfluenceOverrides(p)) &&
      (k in LoadInfluenceOverrides(p) ==> LoadInfluenceOverrides(q)[k] == LoadInfluenceOverrides(p)[k])
    ensures q.(influenceOverrides := p.influenceOverrides) == p
  {
    p.(influenceOverrides := p.influenceOverrides[override.tag := override])
  }

  /* ---------------- tag statistics ---------------- */

  /** The stats of every tag; a store never written to has none. */
  function LoadTagStats(p: Prefs): (stats: map<string, TagStats>)
    ensures p == Empty ==> stats == map[]
    ensures forall tag :: tag in stats <==> tag in p.tagStats
  {
    p.tagStats
  }

  function SaveTagStats(p: Prefs, stats: map<string, TagStats>): (q: Prefs)
    ensures LoadTagStats(q) == stats
    ensures q.(tagStats := p.tagStats) == p
  {
    p.(tagStats := stats)
  }

  /** Takes one entry's share out of a tag; a tag without stats is skipped. */
  function Decrement(stats: map<string, TagStats>, tag: string, delta: real): map<string, TagStats> {
    if tag in stats then
      stats[tag := stats[tag].(count := stats[tag].count - 1, totalDelta := stats[tag].totalDelta - delta)]
    else stats
  }

  /** Adds one entry's share to a tag, starting it at one entry when it has no stats. */
  function Increment(stats: map<string, TagStats>, tag: string, delta: real): map<string, TagStats> {
    if tag in stats then
      stats[tag := stats[tag].(count := stats[tag].count + 1, totalDelta := stats[tag].totalDelta + delta)]
    else stats[tag := TagStats(tag, 1, delta)]
  }

  /** `Decrement` for every tag of a list, first to last. */
  function DecrementAll(stats: map<string, TagStats>, tags: seq<string>, delta: real): map<string, TagStats> {
    if tags == [] then stats
    else Decrement(DecrementAll(stats, tags[..|tags| - 1], delta), tags[|tags| - 1], delta)
  }

  /** `Increment` for every tag of a list, first to last. */
  function IncrementAll(stats: map<string, TagStats>, tags: seq<string>, delta: real): map<string, TagStats> {
    if tags == [] then stats
    else Increment(IncrementAll(stats, tags[..|tags| - 1], delta), tags[|tags| - 1], delta)
  }

  /** Keeps only the stats with a positive count. */
  function DropNonPositive(stats: map<string, TagStats>): (r: map<string, TagStats>)
    ensures forall k :: k in r <==> k in stats && stats[k].count > 0
    ensures forall k :: k in r ==> r[k] == stats[k]
  {
    map k | k in stats && stats[k].count > 0 :: stats[k]
  }

  /** What `applyEntryToTagStats` stores: the previous version of the entry
      taken out, the new one added, and tags left without entries dropped. */
  function ApplyEntry(stats: map<string, TagStats>, entry: LedgerEntry, previous: Option<LedgerEntry>): (r: map<string, TagStats>)
    ensures forall tag :: tag in r ==> r[tag].count > 0
  {
    DropNonPositive(IncrementAll(WithoutPrevious(stats, previous), entry.tags, entry.delta))
  }

  /** What `removeEntryFromTagStats` stores. */
  function RemoveEntry(stats: map<string, TagStats>, entry: LedgerEntry): (r: map<string, TagStats>)
    ensures forall tag :: tag in r ==> r[tag].count > 0
  {
    DropNonPositive(DecrementAll(stats, entry.tags, entry.delta))
  }

  /** The stats of an entry's tags are updated one tag at a time, in order. */
  method ApplyEntryToTagStats(p: Prefs, entry: LedgerEntry, previousEntry: Option<LedgerEntry>) returns (q: Prefs)
    ensures q == SaveTagStats(p, ApplyEntry(LoadTagStats(p), entry, previousEntry))
    ensures forall tag :: tag in LoadTagStats(q) ==> LoadTagStats(q)[tag].count > 0
  {
    var stats := LoadTagStats(p);
    if previousEntry.Some? {
      var prev := previousEntry.value;
      for i := 0 to |prev.tags|
        invariant stats == DecrementAll(LoadTagStats(p), prev.tags[..i], prev.delta)
      {
        assert prev.tags[..i + 1][..i] == prev.tags[..i];
        stats := Decrement(stats, prev.tags[i], prev.delta);
      }
      assert prev.tags[..|prev.tags|] == prev.tags;
    }
    ghost var withoutPrevious := stats;
    for i := 0 to |entry.tags|
      invariant stats == IncrementAll(withoutPrevious, entry.tags[..i], entry.delta)
    {
      assert entry.tags[..i + 1][..i] == entry.tags[..i];
      stats := Increment(stats, entry.tags[i], entry.delta);
    }
    assert entry.tags[..|entry.tags|] == entry.tags;
    q := SaveTagStats(p, DropNonPositive(stats));
  }

  method RemoveEntryFromTagStats(p: Prefs, entry: LedgerEntry) returns (q: Prefs)
    ensures q == SaveTagStats(p, RemoveEntry(LoadTagStats(p), entry))
    ensures forall tag :: tag in LoadTagStats(q) ==> LoadTagStats(q)[tag].count > 0
  {
    var stats := LoadTagStats(p);
    for i := 0 to |entry.tags|
      invariant stats == DecrementAll(LoadTagStats(p), entry.tags[..i], entry.delta)
    {
      assert entry.tags[..i + 1][..i] == entry.tags[..i];
      stats := Decrement(stats, entry.tags[i], entry.delta);
    }
    assert entry.tags[..|entry.tags|] == entry.tags;
    q := SaveTagStats(p, DropNonPositive(stats));
  }

  /** How often `k` is listed in `tags`. */
  function Occurrences(tags: seq<string>, k: string): (n: nat)
    ensures n == multiset(tags)[k]
  {
    if tags == [] then 0
    else
      assert tags == tags[..|tags| - 1] + [tags[|tags| - 1]];
      Occurrences(tags[..|tags| - 1], k) + if tags[|tags| - 1] == k then 1 else 0
  }

  /** `delta` added up `n` times. */
  function Times(n: nat, delta: real): (r: real)
    ensures r == n as real * delta
  {
    if n == 0 then 0.0 else Times(n - 1, delta) + delta
  }

  /** Where a tag stands after `IncrementAll`: a tag listed `n` times gains `n`
      entries of `delta`, starting from nothing when it had no stats. */
  lemma {:induction false} IncrementAllAt(stats: map<string, TagStats>, tags: seq<string>, delta: real, k: string)
    ensures var n := Occurrences(tags, k); var r := IncrementAll(stats, tags, delta);
      && (k in r <==> k in stats || n > 0)
      && (k in stats ==> r[k].tag == stats[k].tag && r[k].count == stats[k].count + n
                         && r[k].totalDelta == stats[k].totalDelta + Times(n, delta))
      && (k !in stats && n > 0 ==> r[k].tag == k && r[k].count == n && r[k].totalDelta == Times(n, delta))
  {
    if tags != [] {
      IncrementAllAt(stats, tags[..|tags| - 1], delta, k);
    }
  }

  /** Where a tag stands after `DecrementAll`: a tag with stats listed `n` times
      loses `n` entries of `delta`; a tag without stats stays without. */
  lemma {:induction false} DecrementAllAt(stats: map<string, TagStats>, tags: seq<string>, delta: real, k: string)
    ensures var n := Occurrences(tags, k); var r := DecrementAll(stats, tags, delta);
      && (k in r <==> k in stats)
      && (k in stats ==> r[k].tag == stats[k].tag && r[k].count == stats[k].count - n
                         && r[k].totalDelta == stats[k].totalDelta - Times(n, delta))
  {
    if tags != [] {
      DecrementAllAt(stats, tags[..|tags| - 1], delta, k);
    }
  }

  /** The stats before the new entry is added: the previous version taken out. */
  function WithoutPrevious(stats: map<string, TagStats>, previous: Option<LedgerEntry>): map<string, TagStats> {
    if previous.Some? then DecrementAll(stats, previous.value.tags, previous.value.delta) else stats
  }

  lemma {:induction false} AddedTagAt(base: map<string, TagStats>, entry: LedgerEntry, tag: string)
    requires tag !in base && tag in entry.tags
    ensures var n := Occurrences(entry.tags, tag);
      var r := DropNonPositive(IncrementAll(base, entry.tags, entry.delta));
      tag in r && r[tag] == TagStats(tag, n, Times(n, entry.delta))
  {
    var r := IncrementAll(base, entry.tags, entry.delta);
    IncrementAllAt(base, entry.tags, entry.delta, tag);
    assert tag in multiset(entry.tags);
  }

  /** A tag of the new entry that had no stats is stored with one count per
      occurrence: a tag listed once starts at count 1 and the entry's delta. */
  lemma {:induction false} NewTagStartsFresh(stats: map<string, TagStats>, entry: LedgerEntry, previous: Option<LedgerEntry>, tag: string)
    requires tag !in stats && tag in entry.tags
    ensures var n := Occurrences(entry.tags, tag);
      tag in ApplyEntry(stats, entry, previous) &&
      ApplyEntry(stats, entry, previous)[tag] == TagStats(tag, n, Times(n, entry.delta))
    ensures Occurrences(entry.tags, tag) == 1 ==> ApplyEntry(stats, entry, previous)[tag] == TagStats(tag, 1, entry.delta)
  {
    if previous.Some? {
      DecrementAllAt(stats, previous.value.tags, previous.value.delta, tag);
    }
    AddedTagAt(WithoutPrevious(stats, previous), entry, tag);
  }

  /** A tag of the previous entry that has no stats is not created, unless the
      new entry carries it; removing an entry never creates a tag either. */
  lemma {:induction false} MissingTagsNotCreated(stats: map<string, TagStats>, entry: LedgerEntry, previous: Option<LedgerEntry>, tag: string)
    requires tag !in stats
    ensures tag !in entry.tags ==> tag !in ApplyEntry(stats, entry, previous)
    ensures tag !in RemoveEntry(stats, entry)
  {
    var withoutPrevious := WithoutPrevious(stats, previous);
    if previous.Some? {
      DecrementAllAt(stats, previous.value.tags, previous.value.delta, tag);
    }
    IncrementAllAt(withoutPrevious, entry.tags, entry.delta, tag);
    DecrementAllAt(stats, entry.tags, entry.delta, tag);
  }

  /** Tags that neither version of the entry carries keep their stats, as long
      as those stats were stored with a positive count. */
  lemma {:induction false} UntouchedTagsKept(stats: map<string, TagStats>, entry: LedgerEntry, previous: Option<LedgerEntry>, tag: string)
    requires tag in stats && stats[tag].count > 0
    requires tag !in entry.tags
    ensures previous.None? || tag !in previous.value.tags ==>
      tag in ApplyEntry(stats, entry, previous) && ApplyEntry(stats, entry, previous)[tag] == stats[tag]
    ensures tag in RemoveEntry(stats, entry) && RemoveEntry(stats, entry)[tag] == stats[tag]
  {
    var withoutPrevious := WithoutPrevious(stats, previous);
    if previous.Some? {
      DecrementAllAt(stats, previous.value.tags, previous.value.delta, tag);
    }
    IncrementAllAt(withoutPrevious, entry.tags, entry.delta, tag);
    DecrementAllAt(stats, entry.tags, entry.delta, tag);
  }

  /** Adding an entry and then removing it gives back the stats it started
      from, for any tag list (repeated tags included), provided every stored
      count was positive, as both updates leave it. */
  lemma {:induction false} ApplyThenRemoveRestores(stats: map<string, TagStats>, entry: LedgerEntry)
    requires forall k :: k in stats ==> stats[k].count > 0
    ensures RemoveEntry(ApplyEntry(stats, entry, None), entry) == stats
  {
    var added := IncrementAll(stats, entry.tags, entry.delta);
    var applied := ApplyEntry(stats, entry, None);
    var restored := RemoveEntry(applied, entry);
    forall k
      ensures k in restored <==> k in stats
      ensures k in stats ==> restored[k] == stats[k]
    {
      IncrementAllAt(stats, entry.tags, entry.delta, k);
      DecrementAllAt(applied, entry.tags, entry.delta, k);
    }
  }

  /* ---------------- scores ---------------- */

  /** The seven points of the week starting at `weekStart`: each day's
      baseline plus its events, plus its reflection's drift. */
  function LoadWeeklyMood(p: Prefs, weekStart: Day, baseline: real, iso: Day -> string): (points: seq<DailyMoodPoint>)
    ensures |points| == 7
    ensures forall k :: 0 <= k < 7 ==>
      points[k].date == weekStart + k &&
      points[k].score == DayScore(baseline, LoadEntriesForDay(p, iso(weekStart + k)), LoadDailyReflection(p, iso(weekStart + k)))
  {
    seq(7, k requires 0 <= k < 7 =>
      var dayKey := iso(weekStart + k);
      DailyMoodPoint(weekStart + k, DayScore(baseline, LoadEntriesForDay(p, dayKey), LoadDailyReflection(p, dayKey))))
  }

  /** A week with nothing logged sits at the baseline every day. */
  lemma WeeklyMoodOfEmptyStore(weekStart: Day, baseline: real, iso: Day -> string)
    ensures forall point :: point in LoadWeeklyMood(Empty, weekStart, baseline, iso) ==> point.score == baseline
  {
    var points := LoadWeeklyMood(Empty, weekStart, baseline, iso);
    forall point | point in points
      ensures point.score == baseline
    {
      var k :| 0 <= k < 7 && points[k] == point;
      assert LoadEntriesForDay(Empty, iso(weekStart + k)) == [];
    }
  }
}
