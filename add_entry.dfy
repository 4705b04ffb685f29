/** The sheet that creates or edits one entry (ui/AddEntrySheet.kt): the
    delta slider, the tag chips and their text field, the autocomplete list,
    the chip colours, and the entry it hands back on save. */
module AddEntry {

  import opened Wrappers
  import opened Model
  import opened Text
  import opened QuarterSnap
  import Sorting

  /* ---------------- chip colours ---------------- */

  /** Colours as 32-bit ARGB values. */
  const White: int := 0xFFFFFFFF
  const SoftGreen: int := 0xFFA5D6A7
  const MediumGreen: int := 0xFF66BB6A
  const StrongGreen: int := 0xFF388E3C
  const SoftRed: int := 0xFFE5A0A0
  const MediumRed: int := 0xFFE57373
  const StrongRed: int := 0xFFB73F3F

  /** The tag's average, or 0 when the tag has no stats. */
  function AverageOf(tag: string, stats: map<string, TagStats>): (avg: real)
    ensures tag !in stats ==> avg == 0.0
    ensures tag in stats ==> avg == stats[tag].Average()
  {
    if tag in stats then stats[tag].Average() else 0.0
  }

  /** `tagColor`: the chip colour of a tag, by the sign and size of its average. */
  function TagColor(tag: string, stats: map<string, TagStats>): (color: int)
    ensures color == ColorForAverage(AverageOf(tag, stats))
    ensures tag !in stats ==> color == White
  {
    ColorForAverage(AverageOf(tag, stats))
  }

  function ColorForAverage(avg: real): int {
    if avg == 0.0 then White
    else if avg > 0.0 && avg < 0.75 then SoftGreen
    else if avg >= 0.75 && avg < 1.25 then MediumGreen
    else if avg >= 1.25 then StrongGreen
    else if avg < 0.0 && avg > -0.75 then SoftRed
    else if avg <= -0.75 && avg > -1.25 then MediumRed
    else StrongRed
  }

  /** The colour scale from strong red (-3) through white (0) to strong green (3). */
  function Shade(color: int): int {
    if color == StrongRed then -3
    else if color == MediumRed then -2
    else if color == SoftRed then -1
    else if color == SoftGreen then 1
    else if color == MediumGreen then 2
    else if color == StrongGreen then 3
    else 0
  }

  /** The seven colour bands: white exactly at zero, greens split at 0.75 and
      1.25, reds split at -0.75 and -1.25. */
  lemma ColorBands(avg: real)
    ensures var s := Shade(ColorForAverage(avg));
      && (s == 0 <==> avg == 0.0)
      && (s == 1 <==> 0.0 < avg < 0.75)
      && (s == 2 <==> 0.75 <= avg < 1.25)
      && (s == 3 <==> 1.25 <= avg)
      && (s == -1 <==> -0.75 < avg < 0.0)
      && (s == -2 <==> -1.25 < avg <= -0.75)
      && (s == -3 <==> avg <= -1.25)
  {
  }

  /** A larger average never gets a redder colour. */
  lemma ColorMonotone(a: real, b: real)
    requires a <= b
    ensures Shade(ColorForAverage(a)) <= Shade(ColorForAverage(b))
  {
    ColorBands(a);
    ColorBands(b);
  }

  /* ---------------- tag chips ---------------- */

  predicate EndsWithComma(s: string) {
    |s| > 0 && s[|s| - 1] == ','
  }

  /** Appends the trimmed text as a new chip unless it is blank. There is no
      de-duplication: a tag already present is appended again. */
  function CommitTag(tags: seq<string>, raw: string): (r: seq<string>)
    ensures IsBlank(raw) ==> r == tags
    ensures !IsBlank(raw) ==> r == tags + [Trim(raw)] && Trim(raw) != [] && Trim(Trim(raw)) == Trim(raw)
  {
    TrimIdempotent(raw);
    var newTag := Trim(raw);
    if newTag != [] then tags + [newTag] else tags
  }

  /** Removing a chip from the list: removes the first occurrence of `tag`, if any. */
  function RemoveFirst(tags: seq<string>, tag: string): (r: seq<string>)
    ensures tag !in tags ==> r == tags
    ensures tag in tags ==> |r| == |tags| - 1
    ensures multiset(r) == multiset(tags) - multiset{tag}
  {
    if tags == [] then []
    else
      assert tags == [tags[0]] + tags[1..];
      if tags[0] == tag then tags[1..]
      else [tags[0]] + RemoveFirst(tags[1..], tag)
  }

  /** Only the first occurrence goes: the tags before it are kept, and so is
      everything after it, later copies of the same tag included. */
  lemma {:induction false} RemoveFirstOccurrence(tags: seq<string>, tag: string, i: nat)
    requires i < |tags| && tags[i] == tag && tag !in tags[..i]
    ensures RemoveFirst(tags, tag) == tags[..i] + tags[i + 1..]
  {
    if i > 0 {
      assert tags[0] != tag by {
        assert tags[0] == tags[..i][0];
      }
      assert tags[1..][..i - 1] == tags[1..i];
      assert tag !in tags[1..][..i - 1];
      RemoveFirstOccurrence(tags[1..], tag, i - 1);
      assert tags[..i] == [tags[0]] + tags[1..i];
    }
  }

  /* ---------------- autocomplete ---------------- */

  /** The stats keys that contain the query, ignoring case, and are not
      selected yet, in the order given. */
  function Matching(keys: seq<string>, query: string, selected: seq<string>): (m: seq<string>)
    ensures forall x :: x in m <==> x in keys && ContainsIgnoreCase(x, query) && x !in selected
  {
    if keys == [] then []
    else
      var rest := Matching(keys[1..], query, selected);
      var x := keys[0];
      assert forall y :: y in keys <==> y == x || y in keys[1..];
      if ContainsIgnoreCase(x, query) && x !in selected then [x] + rest else rest
  }

  /** `AutocompleteTagSuggestions`: nothing for a blank query; otherwise the
      first five matching keys in string order. `keys` lists the stats map's
      keys in its iteration order. */
  function Suggestions(query: string, selected: seq<string>, keys: seq<string>): (r: seq<string>)
    ensures |r| <= 5
  {
    if IsBlank(query) then []
    else
      var sorted := Sorting.SortBy(Matching(keys, query, selected), LexLess);
      sorted[..if |sorted| < 5 then |sorted| else 5]
  }

  /** What the suggestion list shows: matching, unselected keys in string
      order; all of them when fewer than five match, and otherwise five that
      sort no later than any match left out. */
  lemma SuggestionsSpec(query: string, selected: seq<string>, keys: seq<string>)
    ensures var r := Suggestions(query, selected, keys);
      && (IsBlank(query) ==> r == [])
      && (forall x :: x in r ==> x in keys && ContainsIgnoreCase(x, query) && x !in selected)
      && (forall p, q :: 0 <= p < q < |r| ==> !LexLess(r[q], r[p]))
      && (!IsBlank(query) && |r| < 5 ==>
            forall x :: x in keys && ContainsIgnoreCase(x, query) && x !in selected ==> x in r)
      && (!IsBlank(query) ==>
            forall x, y :: x in keys && ContainsIgnoreCase(x, query) && x !in selected && x !in r && y in r ==> !LexLess(x, y))
  {
    if !IsBlank(query) {
      var m := Matching(keys, query, selected);
      var sorted := Sorting.SortBy(m, LexLess);
      LexLessIsStrictWeakOrder();
      Sorting.SortByIsSorted(m, LexLess);
      SortedPrefix(m, sorted, if |sorted| < 5 then |sorted| else 5);
    }
  }

  /** A prefix of a sorted arrangement of `m` holds only elements of `m`, in
      order, all of `m` when it is the whole, and nothing that sorts after an
      element of `m` left out. */
  lemma SortedPrefix(m: seq<string>, sorted: seq<string>, c: nat)
    requires multiset(sorted) == multiset(m) && c <= |sorted|
    requires Sorting.Sorted(sorted, LexLess)
    ensures forall x :: x in sorted[..c] ==> x in m
    ensures forall p, q :: 0 <= p < q < c ==> !LexLess(sorted[..c][q], sorted[..c][p])
    ensures c == |sorted| ==> forall x :: x in m ==> x in sorted[..c]
    ensures forall x, y :: x in m && x !in sorted[..c] && y in sorted[..c] ==> !LexLess(x, y)
  {
    var r := sorted[..c];
    forall x | x in m
      ensures exists j :: 0 <= j < |sorted| && sorted[j] == x
    {
      assert x in multiset(sorted);
    }
    forall x | x in r
      ensures x in m
    {
      assert x in multiset(m);
    }
    forall x, y | x in m && x !in r && y in r
      ensures !LexLess(x, y)
    {
      var j :| 0 <= j < |sorted| && sorted[j] == x;
      var p :| 0 <= p < |r| && r[p] == y;
      assert j >= |r|;
    }
  }

  /* ---------------- the sheet ---------------- */

  /** The sheet's state. `existing` is the entry being edited, if any. */
  class EntrySheet {
    const existing: Option<LedgerEntry>
    var delta: real
    var tags: seq<string>
    var tagsText: string
    var note: string
    var title: string
    var feeling: string

    /** Opening the sheet: every field starts from the edited entry, or empty. */
    constructor (existingEntry: Option<LedgerEntry>)
      ensures existing == existingEntry && tagsText == ""
      ensures existingEntry.Some? ==>
        var e := existingEntry.value;
        delta == e.delta && tags == e.tags && note == e.note && title == e.title && feeling == e.feeling
      ensures existingEntry.None? ==>
        delta == 0.0 && tags == [] && note == "" && title == "" && feeling == ""
    {
      existing := existingEntry;
      tagsText := "";
      if existingEntry.Some? {
        var e := existingEntry.value;
        delta, tags, note, title, feeling := e.delta, e.tags, e.note, e.title, e.feeling;
      } else {
        delta, tags, note, title, feeling := 0.0, [], "", "", "";
      }
    }

    /** The slider: every raw position is snapped to a quarter in [-2, 2]. */
    method OnDeltaChange(raw: real)
      modifies this
      ensures delta == SnapToQuarter(raw)
      ensures -2.0 <= delta <= 2.0
      ensures tags == old(tags) && tagsText == old(tagsText)
      ensures note == old(note) && title == old(title) && feeling == old(feeling)
    {
      delta := SnapToQuarter(raw);
    }

    /** The tag field's `onValueChange`: a typed comma commits the text before
        it as a chip and clears the field; anything else just becomes the text. */
    method OnTagsTextChange(input: string)
      modifies this
      ensures EndsWithComma(input) ==> tags == CommitTag(old(tags), input[..|input| - 1]) && tagsText == ""
      ensures !EndsWithComma(input) ==> tags == old(tags) && tagsText == input
      ensures !EndsWithComma(tagsText)
      ensures delta == old(delta) && note == old(note) && title == old(title) && feeling == old(feeling)
    {
      if EndsWithComma(input) {
        var newTag := Trim(input[..|input| - 1]);
        if newTag != [] {
          tags := tags + [newTag];
        }
        tagsText := "";
      } else {
        tagsText := input;
      }
    }

    /** The keyboard's Done action commits the current text. */
    method OnDone()
      modifies this
      ensures tags == CommitTag(old(tags), old(tagsText)) && tagsText == ""
      ensures delta == old(delta) && note == old(note) && title == old(title) && feeling == old(feeling)
    {
      var newTag := Trim(tagsText);
      if newTag != [] {
        tags := tags + [newTag];
      }
      tagsText := "";
    }

    /** A chip's remove button. */
    method OnRemoveChip(tag: string)
      modifies this
      ensures tags == RemoveFirst(old(tags), tag)
      ensures tagsText == old(tagsText) && delta == old(delta)
      ensures note == old(note) && title == old(title) && feeling == old(feeling)
    {
      tags := RemoveFirst(tags, tag);
    }

    /** Picking a suggestion appends it as a chip and clears the field. */
    method OnTagSelected(tag: string)
      modifies this
      ensures tags == old(tags) + [tag] && tagsText == ""
      ensures delta == old(delta) && note == old(note) && title == old(title) && feeling == old(feeling)
    {
      tags := tags + [tag];
      tagsText := "";
    }

    /** The entry handed to `onSave`. An edited entry keeps its id and
        timestamp; a new one takes `freshId` and `now` (a random id and the
        clock, supplied by the caller). */
    method Save(freshId: int, now: int) returns (entry: LedgerEntry)
      ensures existing.Some? ==> entry.id == existing.value.id && entry.timestamp == existing.value.timestamp
      ensures existing.None? ==> entry.id == freshId && entry.timestamp == now
      ensures entry.delta == delta && entry.tags == tags && entry.note == note
      ensures entry.title == title && entry.feeling == feeling
    {
      var id := if existing.Some? then existing.value.id else freshId;
      var timestamp := if existing.Some? then existing.value.timestamp else now;
      entry := LedgerEntry(id, timestamp, delta, tags, note, title, feeling);
    }
  }
}
