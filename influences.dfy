/** The Influences screen (ui/Influences.kt): every tag with its count and
    average, three sort chips, and a sheet listing the entries of one tag. */
module Influences {

  import opened Wrappers
  import opened Model
  import opened Text
  import opened LedgerStore
  import Sorting

  datatype InfluenceSort = AZ | Count | Intensity

  /* ---------------- sort chips ---------------- */

  /** The direction a chip starts in when it becomes the active one: A–Z
      ascending, Count and Intensity from high to low. */
  function DefaultAscending(chip: InfluenceSort): (asc: bool)
    ensures asc <==> chip == AZ
  {
    match chip
    case AZ => true
    case Count => false
    case Intensity => false
  }

  /** A chip click: the active chip flips the direction, another chip becomes
      active with its default direction. */
  function ClickChip(mode: InfluenceSort, ascending: bool, chip: InfluenceSort): (next: (InfluenceSort, bool))
    ensures next.0 == chip
    ensures chip == mode ==> next.1 == !ascending
    ensures chip != mode ==> next.1 == DefaultAscending(chip)
  {
    if chip == mode then (mode, !ascending) else (chip, DefaultAscending(chip))
  }

  /** Clicking the active chip twice gives back the state it started from. */
  lemma ClickActiveTwice(mode: InfluenceSort, ascending: bool)
    ensures var once := ClickChip(mode, ascending, mode);
      ClickChip(once.0, once.1, mode) == (mode, ascending)
  {
  }

  /** Whatever the state, clicking another chip and then this one again leaves
      this chip active in its default direction, so the chips keep no memory
      of an earlier direction. */
  lemma SwitchingForgetsDirection(mode: InfluenceSort, ascending: bool, other: InfluenceSort)
    requires other != mode
    ensures var away := ClickChip(mode, ascending, other);
      ClickChip(away.0, away.1, mode) == (mode, DefaultAscending(mode))
  {
  }

  /* ---------------- the ordering of the list ---------------- */

  function LowerTag(s: TagStats): string {
    LowerStr(s.tag)
  }

  function Intensity(s: TagStats): real {
    var a := s.Average();
    if a < 0.0 then -a else a
  }

  /** The "goes before" relation of each chip and direction; a descending sort
      is the ascending relation read backwards. */
  function SortRelation(mode: InfluenceSort, ascending: bool): (TagStats, TagStats) -> bool {
    match mode
    case AZ =>
      if ascending then (a: TagStats, b: TagStats) => LexLess(LowerTag(a), LowerTag(b))
      else (a: TagStats, b: TagStats) => LexLess(LowerTag(b), LowerTag(a))
    case Count =>
      if ascending then (a: TagStats, b: TagStats) => a.count < b.count
      else (a: TagStats, b: TagStats) => b.count < a.count
    case Intensity =>
      if ascending then (a: TagStats, b: TagStats) => Intensity(a) < Intensity(b)
      else (a: TagStats, b: TagStats) => Intensity(b) < Intensity(a)
  }

  /** `visibleTags`: the stats sorted (stably) by the active chip. */
  function VisibleTags(allTags: seq<TagStats>, mode: InfluenceSort, ascending: bool): (r: seq<TagStats>)
    ensures |r| == |allTags|
  {
    Sorting.SortBy(allTags, SortRelation(mode, ascending))
  }

  /** `a` may come before `b` in the order the chip asks for. */
  predicate InOrder(a: TagStats, b: TagStats, mode: InfluenceSort, ascending: bool) {
    match mode
    case AZ =>
      if ascending then !LexLess(LowerTag(b), LowerTag(a)) else !LexLess(LowerTag(a), LowerTag(b))
    case Count =>
      if ascending then a.count <= b.count else a.count >= b.count
    case Intensity =>
      if ascending then Intensity(a) <= Intensity(b) else Intensity(a) >= Intensity(b)
  }

  ghost predicate OrderedBy(r: seq<TagStats>, mode: InfluenceSort, ascending: bool) {
    forall p, q :: 0 <= p < q < |r| ==> InOrder(r[p], r[q], mode, ascending)
  }

  /** Every chip relation is one a stable sort can use. */
  lemma SortRelationIsOrder(mode: InfluenceSort, ascending: bool)
    ensures Sorting.StrictWeakOrder(SortRelation(mode, ascending))
  {
    LexLessIsStrictWeakOrder();
  }

  /** The list shows every tag exactly as often as the stats hold it, in the
      order of the active chip and direction. */
  lemma VisibleTagsSpec(allTags: seq<TagStats>, mode: InfluenceSort, ascending: bool)
    ensures multiset(VisibleTags(allTags, mode, ascending)) == multiset(allTags)
    ensures OrderedBy(VisibleTags(allTags, mode, ascending), mode, ascending)
  {
    var lt := SortRelation(mode, ascending);
    SortRelationIsOrder(mode, ascending);
    Sorting.SortByIsSorted(allTags, lt);
    var r := VisibleTags(allTags, mode, ascending);
    forall p, q | 0 <= p < q < |r|
      ensures !lt(r[q], r[p])
    {
    }
  }

  /** The list the screen starts from: the loaded stats sorted by lower-cased
      tag, given the map's values in its iteration order. */
  function InitialTags(values: seq<TagStats>): (r: seq<TagStats>)
    ensures r == VisibleTags(values, AZ, true)
  {
    Sorting.SortBy(values, SortRelation(AZ, true))
  }

  /** Sorting the loaded list A–Z ascending again changes nothing visible:
      the default chip shows the tags in lower-case order. */
  lemma InitialTagsSorted(values: seq<TagStats>)
    ensures multiset(InitialTags(values)) == multiset(values)
    ensures OrderedBy(InitialTags(values), AZ, true)
  {
    VisibleTagsSpec(values, AZ, true);
  }

  /* ---------------- the entries of one influence ---------------- */

  function WithTag(entries: seq<LedgerEntry>, tag: string): (r: seq<LedgerEntry>)
    ensures forall e :: e in r <==> e in entries && tag in e.tags
    ensures forall e: LedgerEntry :: tag in e.tags ==> multiset(r)[e] == multiset(entries)[e]
  {
    if entries == [] then []
    else
      assert entries == [entries[0]] + entries[1..];
      var rest := WithTag(entries[1..], tag);
      if tag in entries[0].tags then [entries[0]] + rest else rest
  }

  /** The entries of the given days, in the given day order, that carry the tag. */
  function Gathered(p: Prefs, days: seq<string>, tag: string): seq<LedgerEntry> {
    if days == [] then []
    else Gathered(p, days[..|days| - 1], tag) + WithTag(LoadEntriesForDay(p, days[|days| - 1]), tag)
  }

  lemma {:induction false} GatheredMembers(p: Prefs, days: seq<string>, tag: string, e: LedgerEntry)
    ensures e in Gathered(p, days, tag) <==>
      tag in e.tags && exists k :: k in days && e in LoadEntriesForDay(p, k)
  {
    if days != [] {
      var init := days[..|days| - 1];
      var last := days[|days| - 1];
      GatheredMembers(p, init, tag, e);
      assert forall k :: k in days <==> k in init || k == last;
    }
  }

  function ByTimestampDescending(a: LedgerEntry, b: LedgerEntry): bool {
    b.timestamp < a.timestamp
  }

  /** The `LaunchedEffect(selectedInfluence)` body. `days` lists the set
      `loadDaysWithEntries` returns, in its iteration order; each day's
      matching entries are appended, and the result is sorted by timestamp,
      newest first. */
  method CollectInfluenceEntries(p: Prefs, days: seq<string>, tag: string) returns (entries: seq<LedgerEntry>)
    requires forall k :: k in days <==> k in LoadDaysWithEntries(p)
    ensures multiset(entries) == multiset(Gathered(p, days, tag))
    ensures forall e: LedgerEntry :: e in entries <==>
      tag in e.tags && exists k :: e in LoadEntriesForDay(p, k)
    ensures forall i, j :: 0 <= i < j < |entries| ==> entries[i].timestamp >= entries[j].timestamp
  {
    var results := GatherTagged(p, days, tag);
    entries := Sorting.SortBy(results, ByTimestampDescending);
    assert Sorting.StrictWeakOrder(ByTimestampDescending);
    Sorting.SortByIsSorted(results, ByTimestampDescending);
    forall e: LedgerEntry
      ensures e in entries <==> tag in e.tags && exists k :: e in LoadEntriesForDay(p, k)
    {
      assert e in entries <==> e in multiset(results);
      GatheredFromAllDays(p, days, tag, e);
    }
  }

  /** The loop over the days: each day's matching entries, appended in turn. */
  method GatherTagged(p: Prefs, days: seq<string>, tag: string) returns (results: seq<LedgerEntry>)
    ensures results == Gathered(p, days, tag)
  {
    results := [];
    for i := 0 to |days|
      invariant results == Gathered(p, days[..i], tag)
    {
      assert days[..i + 1][..i] == days[..i];
      results := results + WithTag(LoadEntriesForDay(p, days[i]), tag);
    }
    assert days[..|days|] == days;
  }

  /** Listing every day with data gathers every tagged entry of the store. */
  lemma GatheredFromAllDays(p: Prefs, days: seq<string>, tag: string, e: LedgerEntry)
    requires forall k :: k in days <==> k in LoadDaysWithEntries(p)
    ensures e in Gathered(p, days, tag) <==> tag in e.tags && exists k :: e in LoadEntriesForDay(p, k)
  {
    GatheredMembers(p, days, tag, e);
    if tag in e.tags && exists k :: e in LoadEntriesForDay(p, k) {
      var k :| e in LoadEntriesForDay(p, k);
      assert k in days;
    }
  }

  /* ---------------- expanding an entry ---------------- */

  /** Clicking an entry row: it opens, or closes when it is the open one. */
  function ToggleExpanded(expanded: Option<int>, id: int): (r: Option<int>)
    ensures r == Some(id) <==> expanded != Some(id)
    ensures r == None <==> expanded == Some(id)
  {
    if expanded == Some(id) then None else Some(id)
  }

  /** Two clicks on a row that is closed, or open, bring it back. */
  lemma ToggleTwice(expanded: Option<int>, id: int)
    requires expanded == None || expanded == Some(id)
    ensures ToggleExpanded(ToggleExpanded(expanded, id), id) == expanded
  {
  }

  /* ---------------- the screen ---------------- */

  class InfluencesScreen {
    var allTags: seq<TagStats>
    var sortMode: InfluenceSort
    var sortAscending: bool
    var selectedInfluence: Option<string>
    var influenceEntries: seq<LedgerEntry>
    var expandedEntryId: Option<int>

    /** The screen opens on A–Z ascending with no influence selected; the
        stats are the loaded map's values in its iteration order. */
    constructor (values: seq<TagStats>)
      ensures allTags == InitialTags(values)
      ensures sortMode == AZ && sortAscending
      ensures selectedInfluence == None && influenceEntries == [] && expandedEntryId == None
    {
      allTags := InitialTags(values);
      sortMode := AZ;
      sortAscending := true;
      selectedInfluence := None;
      influenceEntries := [];
      expandedEntryId := None;
    }

    /** What the list shows. */
    function Visible(): (r: seq<TagStats>)
      reads this
      ensures r == VisibleTags(allTags, sortMode, sortAscending)
    {
      VisibleTags(allTags, sortMode, sortAscending)
    }

    /** One of the three chips' `onClick`. */
    method OnChip(chip: InfluenceSort)
      modifies this
      ensures (sortMode, sortAscending) == ClickChip(old(sortMode), old(sortAscending), chip)
      ensures allTags == old(allTags) && selectedInfluence == old(selectedInfluence)
      ensures influenceEntries == old(influenceEntries) && expandedEntryId == old(expandedEntryId)
    {
      if sortMode == chip {
        sortAscending := !sortAscending;
      } else {
        sortMode := chip;
        sortAscending := DefaultAscending(chip);
      }
    }

    /** Tapping a tag selects it and loads its entries. */
    method OnSelect(tag: string, p: Prefs, days: seq<string>)
      requires forall k :: k in days <==> k in LoadDaysWithEntries(p)
      modifies this
      ensures selectedInfluence == Some(tag)
      ensures forall e: LedgerEntry :: e in influenceEntries <==>
        tag in e.tags && exists k :: e in LoadEntriesForDay(p, k)
      ensures forall i, j :: 0 <= i < j < |influenceEntries| ==>
        influenceEntries[i].timestamp >= influenceEntries[j].timestamp
      ensures allTags == old(allTags) && sortMode == old(sortMode) && sortAscending == old(sortAscending)
      ensures expandedEntryId == old(expandedEntryId)
    {
      selectedInfluence := Some(tag);
      influenceEntries := CollectInfluenceEntries(p, days, tag);
    }

    /** Closing the sheet clears the selection, its entries and the open row. */
    method OnDismiss()
      modifies this
      ensures selectedInfluence == None && influenceEntries == [] && expandedEntryId == None
      ensures allTags == old(allTags) && sortMode == old(sortMode) && sortAscending == old(sortAscending)
    {
      selectedInfluence := None;
      influenceEntries := [];
      expandedEntryId := None;
    }

    method OnEntryClick(id: int)
      modifies this
      ensures expandedEntryId == ToggleExpanded(old(expandedEntryId), id)
      ensures allTags == old(allTags) && sortMode == old(sortMode) && sortAscending == old(sortAscending)
      ensures selectedInfluence == old(selectedInfluence) && influenceEntries == old(influenceEntries)
    {
      expandedEntryId := if expandedEntryId == Some(id) then None else Some(id);
    }
  }
}
