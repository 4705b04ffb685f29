/** The Markdown notes written to an Obsidian vault (export/ObsidianExport.kt):
    the weekly note, with its front matter, one mood bar per day and the
    week's reflection, and the monthly note. Dates reach the text through
    `iso` (`LocalDate.toString`), weekday names through `dayName`, and
    numbers through `fmt2` (`"%.2f".format`); the file write itself is not
    modelled, only the file name and text handed to it. */
module ObsidianExport {

  import opened Wrappers
  import opened Model
  import opened Text
  import opened LedgerStore
  import InfluenceMath

  /* ---------------- numbers as text ---------------- */

  function DigitChar(d: int): (c: char)
    requires 0 <= d <= 9
    ensures '0' <= c <= '9' && c as int - '0' as int == d
  {
    ('0' as int + d) as char
  }

  /** The decimal digits of `n`, most significant first, without leading zeros. */
  function NatToString(n: nat): (s: string)
    ensures |s| >= 1 && forall i :: 0 <= i < |s| ==> '0' <= s[i] <= '9'
    ensures |s| > 1 ==> s[0] != '0'
  {
    if n < 10 then [DigitChar(n)] else NatToString(n / 10) + [DigitChar(n % 10)]
  }

  /** `Int.toString()`: a minus sign for negative numbers, then the digits. */
  function IntToString(n: int): (s: string)
    ensures n < 0 <==> |s| > 0 && s[0] == '-'
  {
    if n < 0 then "-" + NatToString(-n) else NatToString(n)
  }

  /** Reads decimal digits back, most significant first. */
  function ParseDigits(s: string): int {
    if s == [] then 0 else ParseDigits(s[..|s| - 1]) * 10 + (s[|s| - 1] as int - '0' as int)
  }

  /** The digits written are the number: reading them back gives `n`. */
  lemma {:induction false} NatToStringRoundTrip(n: nat)
    ensures ParseDigits(NatToString(n)) == n
  {
    if n >= 10 {
      var s := NatToString(n);
      assert s[..|s| - 1] == NatToString(n / 10);
      NatToStringRoundTrip(n / 10);
    }
  }

  /** So two different numbers are never written alike. */
  lemma IntToStringInjective(m: int, n: int)
    requires IntToString(m) == IntToString(n)
    ensures m == n
  {
    var s := IntToString(m);
    if m < 0 {
      assert n < 0;
      NatDigitsInjective(-m, -n, s[1..]);
    } else {
      assert n >= 0;
      NatDigitsInjective(m, n, s);
    }
  }

  lemma NatDigitsInjective(a: nat, b: nat, s: string)
    requires NatToString(a) == s && NatToString(b) == s
    ensures a == b
  {
    NatToStringRoundTrip(a);
    NatToStringRoundTrip(b);
  }

  /* ---------------- the weekly note ---------------- */

  const WeeklyBaseline: real := 5.0
  const Placeholder: string := "_No weekly reflection written._"
  const GoodColor: string := "#34c759"
  const BadColor: string := "#ff453a"

  /** `appendLine`: the text and a line feed. */
  function Line(s: string): string {
    s + "\n"
  }

  /** The width of a day's bar: `((score / 10) * 100).toInt()`. */
  function Percent(score: real): (width: int)
    ensures 0.0 <= score <= 10.0 ==> 0 <= width <= 100
  {
    InfluenceMath.ToInt((score / 10.0) * 100.0)
  }

  /** A score on the 0 to 10 scale gives a bar between 0 and 100 percent
      wide: ten times the score, with the fraction dropped. */
  lemma PercentBounds(score: real)
    requires 0.0 <= score <= 10.0
    ensures 0 <= Percent(score) <= 100
    ensures Percent(score) as real <= score * 10.0 < Percent(score) as real + 1.0
  {
    assert (score / 10.0) * 100.0 == score * 10.0;
  }

  /** A day at or above the baseline gets the green bar, below it the red one. */
  function BarColor(score: real): (color: string)
    ensures color == GoodColor <==> score >= WeeklyBaseline
    ensures color == BadColor <==> score < WeeklyBaseline
  {
    if score >= WeeklyBaseline then GoodColor else BadColor
  }

  /* The fixed text of a day's HTML block, line by line around the values. */
  const RowOpen: string := "<div style=\"display:flex; align-items:center; gap:12px; background:rgba(255,255,255,0.04); padding:8px 10px; border-radius:10px; margin:6px 0;\">\n"
  const NameOpen: string := "  <div style=\"min-width:110px; font-weight:600;\">"
  const NameClose: string := "</div>\n"
  const TrackOpen: string := "  <div style=\"flex:1; height:8px; max-width:50%; background:#444; border-radius:5px; overflow:hidden;\">\n"
  const FillWidth: string := "    <div style=\"height:100%; width:"
  const FillColor: string := "%; background:"
  const FillClose: string := "; border-radius:5px;\"></div>\n"
  const TrackClose: string := "  </div>\n"
  const ScoreOpen: string := "  <span style=\"min-width:32px; text-align:right; font-weight:600;\">"
  const ScoreClose: string := "</span>\n"
  const RowClose: string := "</div>"

  /** `inner` between an opening and a closing piece of text. */
  function Framed(open: string, inner: string, close: string): (framed: string)
    ensures |open| + |close| <= |framed|
    ensures framed[..|open|] == open && framed[|framed| - |close|..] == close
  {
    open + inner + close
  }

  /** The HTML block of one day, as `trimIndent` leaves it: seven lines
      joined by line feeds, with no line feed at the end. It is one row
      element, opened by its first line and closed by its last. */
  function DayBlock(point: DailyMoodPoint, dayName: Day -> string, fmt2: real -> string): (block: string)
    ensures |RowOpen| + |RowClose| <= |block|
    ensures block[..|RowOpen|] == RowOpen && block[|block| - |RowClose|..] == RowClose
  {
    Framed(RowOpen,
      NameOpen + dayName(point.date) + NameClose
      + TrackOpen
      + FillWidth + IntToString(Percent(point.score)) + FillColor + BarColor(point.score) + FillClose
      + TrackClose
      + ScoreOpen + fmt2(point.score) + ScoreClose,
      RowClose)
  }

  /** `appendLine` of the block of each point in turn, after `text`. */
  function AppendBlocks(text: string, points: seq<DailyMoodPoint>, dayName: Day -> string, fmt2: real -> string): string {
    if points == [] then text
    else AppendBlocks(text, points[..|points| - 1], dayName, fmt2) + Line(DayBlock(points[|points| - 1], dayName, fmt2))
  }

  /** Writing the blocks of the first `k` points writes a prefix of writing
      them all: the blocks come in the order of the days. */
  lemma {:induction false} AppendBlocksPrefix(text: string, points: seq<DailyMoodPoint>, dayName: Day -> string,
                                              fmt2: real -> string, k: nat)
    requires k <= |points|
    ensures text <= AppendBlocks(text, points[..k], dayName, fmt2) <= AppendBlocks(text, points, dayName, fmt2)
    decreases |points|
  {
    if k < |points| {
      var init := points[..|points| - 1];
      assert init[..k] == points[..k];
      AppendBlocksPrefix(text, init, dayName, fmt2, k);
      LastBlockAppended(text, points, dayName, fmt2);
      PrefixTransitive(AppendBlocks(text, points[..k], dayName, fmt2), AppendBlocks(text, init, dayName, fmt2),
                       AppendBlocks(text, points, dayName, fmt2));
    } else if points != [] {
      var init := points[..|points| - 1];
      assert points[..k] == points;
      assert init[..|init|] == init;
      AppendBlocksPrefix(text, init, dayName, fmt2, |init|);
      LastBlockAppended(text, points, dayName, fmt2);
      PrefixTransitive(text, AppendBlocks(text, init, dayName, fmt2), AppendBlocks(text, points, dayName, fmt2));
    }
  }

  /** Writing one more block only extends the text. */
  lemma LastBlockAppended(text: string, points: seq<DailyMoodPoint>, dayName: Day -> string, fmt2: real -> string)
    requires points != []
    ensures AppendBlocks(text, points[..|points| - 1], dayName, fmt2) <= AppendBlocks(text, points, dayName, fmt2)
  {
    PrefixOfAppend(AppendBlocks(text, points[..|points| - 1], dayName, fmt2), AppendBlocks(text, points[..|points| - 1], dayName, fmt2),
                   Line(DayBlock(points[|points| - 1], dayName, fmt2)));
  }

  lemma PrefixTransitive(a: string, b: string, c: string)
    requires a <= b && b <= c
    ensures a <= c
  {
    assert forall i :: 0 <= i < |a| ==> a[i] == b[i] == c[i];
  }

  lemma PrefixOfAppend(a: string, b: string, c: string)
    requires a <= b
    ensures a <= b + c
  {
    assert forall i :: 0 <= i < |a| ==> (b + c)[i] == b[i];
  }

  lemma SuffixOfAppend(a: string, b: string)
    ensures (a + b)[|a|..] == b
  {
  }

  /** `weeklyAverage`: the mean score, or 0 without data. */
  function WeeklyAverage(points: seq<DailyMoodPoint>): (avg: real)
    ensures points == [] ==> avg == 0.0
    ensures points != [] ==> avg * |points| as real == Sum(Scores(points))
  {
    if points != [] then Mean(Scores(points)) else 0.0
  }

  const VibesHeading: string := "### 🎭 Weekly Mood Vibes"

  /** `vibesSection`: the heading and a blank line, one block per day, then
      the weekly average between blank lines. */
  function VibesSection(points: seq<DailyMoodPoint>, dayName: Day -> string, fmt2: real -> string): string {
    AppendBlocks(Line(VibesHeading) + Line(""), points, dayName, fmt2)
    + Line("") + Line("**Weekly average mood: " + fmt2(WeeklyAverage(points)) + "**") + Line("")
  }

  /** The YAML front matter: the first and last day of the week. */
  function FrontMatter(weekStart: Day, iso: Day -> string): string {
    Line("---") + Line("week_start: " + iso(weekStart)) + Line("week_end: " + iso(weekStart + 6)) + Line("---")
  }

  /** The reflection as written, or the placeholder when it is blank. */
  function ReflectionBody(content: string): (body: string)
    ensures IsBlank(content) ==> body == Placeholder
    ensures !IsBlank(content) ==> body == content
  {
    if IsBlank(content) then Placeholder else content
  }

  /** Everything of the weekly note before its last line. */
  function WeeklyHead(weekStart: Day, iso: Day -> string, points: seq<DailyMoodPoint>,
                      dayName: Day -> string, fmt2: real -> string): string {
    var weekEnd := weekStart + 6;
    FrontMatter(weekStart, iso)
    + Line("")
    + Line("# Week ending " + iso(weekEnd))
    + Line("")
    + Line("- **Start:** " + iso(weekStart) + " (Sunday)")
    + Line("- **End:** " + iso(weekEnd) + " (Saturday)")
    + Line("")
    + VibesSection(points, dayName, fmt2)
    + Line("")
    + Line("### Weekly Reflection")
    + Line("")
  }

  /** The whole weekly note. */
  function WeeklyDocument(weekStart: Day, iso: Day -> string, points: seq<DailyMoodPoint>,
                          dayName: Day -> string, fmt2: real -> string, content: string): (doc: string)
    ensures doc != [] && doc[|doc| - 1] == '\n'
  {
    WeeklyHead(weekStart, iso, points, dayName, fmt2) + Line(ReflectionBody(content))
  }

  /** The `forEach` over the week: one block per point, appended in order. */
  method AppendDayBlocks(start: string, points: seq<DailyMoodPoint>, dayName: Day -> string, fmt2: real -> string)
    returns (text: string)
    ensures text == AppendBlocks(start, points, dayName, fmt2)
  {
    text := start;
    for i := 0 to |points|
      invariant text == AppendBlocks(start, points[..i], dayName, fmt2)
    {
      AppendBlocksStep(start, points, dayName, fmt2, i);
      var block := DayBlock(points[i], dayName, fmt2);
      text := text + Line(block);
    }
    assert points[..|points|] == points;
  }

  lemma AppendBlocksStep(start: string, points: seq<DailyMoodPoint>, dayName: Day -> string, fmt2: real -> string, i: nat)
    requires i < |points|
    ensures AppendBlocks(start, points[..i + 1], dayName, fmt2)
            == AppendBlocks(start, points[..i], dayName, fmt2) + Line(DayBlock(points[i], dayName, fmt2))
  {
    assert points[..i + 1][..i] == points[..i];
  }

  /** The vibes section, built as `buildString` does: the heading, then the
      blocks of the days, then the average. */
  method BuildVibesSection(points: seq<DailyMoodPoint>, dayName: Day -> string, fmt2: real -> string) returns (text: string)
    ensures text == VibesSection(points, dayName, fmt2)
  {
    text := Line(VibesHeading) + Line("");
    text := AppendDayBlocks(text, points, dayName, fmt2);
    text := text + Line("");
    text := text + Line("**Weekly average mood: " + fmt2(WeeklyAverage(points)) + "**");
    text := text + Line("");
  }

  /** `exportWeeklyReflectionToObsidian`: the week's seven points are loaded
      from the store, and the note is built line by line. Returns the file
      name and the text handed to the file write. */
  method ExportWeeklyReflection(p: Prefs, iso: Day -> string, dayName: Day -> string, fmt2: real -> string,
                                weekStart: Day, content: string) returns (fileName: string, markdown: string)
    ensures fileName == WeeklyFileName(weekStart, iso)
    ensures markdown == WeeklyDocument(weekStart, iso, LoadWeeklyMood(p, weekStart, WeeklyBaseline, iso), dayName, fmt2, content)
  {
    var weekEnd := weekStart + 6;
    var weeklyData := LoadWeeklyMood(p, weekStart, WeeklyBaseline, iso);
    var vibesSection := BuildVibesSection(weeklyData, dayName, fmt2);
    markdown := Line("---");
    markdown := markdown + Line("week_start: " + iso(weekStart));
    markdown := markdown + Line("week_end: " + iso(weekEnd));
    markdown := markdown + Line("---");
    markdown := markdown + Line("");
    markdown := markdown + Line("# Week ending " + iso(weekEnd));
    markdown := markdown + Line("");
    markdown := markdown + Line("- **Start:** " + iso(weekStart) + " (Sunday)");
    markdown := markdown + Line("- **End:** " + iso(weekEnd) + " (Saturday)");
    markdown := markdown + Line("");
    markdown := markdown + vibesSection;
    markdown := markdown + Line("");
    markdown := markdown + Line("### Weekly Reflection");
    markdown := markdown + Line("");
    markdown := markdown + Line(if IsBlank(content) then Placeholder else content);
    fileName := "weekly-" + iso(weekStart) + ".md";
  }

  /** The note opens with its front matter, naming the first and the last
      day of the week. */
  lemma WeeklyStartsWithFrontMatter(weekStart: Day, iso: Day -> string, points: seq<DailyMoodPoint>,
                                    dayName: Day -> string, fmt2: real -> string, content: string)
    ensures FrontMatter(weekStart, iso) <= WeeklyDocument(weekStart, iso, points, dayName, fmt2, content)
  {
    var fm := FrontMatter(weekStart, iso);
    var weekEnd := weekStart + 6;
    var h1 := fm + Line("");
    var h2 := h1 + Line("# Week ending " + iso(weekEnd));
    var h3 := h2 + Line("");
    var h4 := h3 + Line("- **Start:** " + iso(weekStart) + " (Sunday)");
    var h5 := h4 + Line("- **End:** " + iso(weekEnd) + " (Saturday)");
    var h6 := h5 + Line("");
    var h7 := h6 + VibesSection(points, dayName, fmt2);
    var h8 := h7 + Line("");
    var h9 := h8 + Line("### Weekly Reflection");
    var head := h9 + Line("");
    PrefixOfAppend(fm, fm, Line(""));
    PrefixOfAppend(fm, h1, Line("# Week ending " + iso(weekEnd)));
    PrefixOfAppend(fm, h2, Line(""));
    PrefixOfAppend(fm, h3, Line("- **Start:** " + iso(weekStart) + " (Sunday)"));
    PrefixOfAppend(fm, h4, Line("- **End:** " + iso(weekEnd) + " (Saturday)"));
    PrefixOfAppend(fm, h5, Line(""));
    PrefixOfAppend(fm, h6, VibesSection(points, dayName, fmt2));
    PrefixOfAppend(fm, h7, Line(""));
    PrefixOfAppend(fm, h8, Line("### Weekly Reflection"));
    PrefixOfAppend(fm, h9, Line(""));
    assert head == WeeklyHead(weekStart, iso, points, dayName, fmt2);
    PrefixOfAppend(fm, head, Line(ReflectionBody(content)));
  }

  /** The note closes with the reflection on a line of its own, or with the
      placeholder when the reflection is blank. */
  lemma WeeklyEndsWithReflection(weekStart: Day, iso: Day -> string, points: seq<DailyMoodPoint>,
                                 dayName: Day -> string, fmt2: real -> string, content: string)
    ensures var doc := WeeklyDocument(weekStart, iso, points, dayName, fmt2, content);
      var last := ReflectionBody(content) + "\n";
      |last| <= |doc| && doc[|doc| - |last|..] == last
  {
    SuffixOfAppend(WeeklyHead(weekStart, iso, points, dayName, fmt2), Line(ReflectionBody(content)));
  }

  /** The vibes section holds one block per day of the week, in the order
      of the days, right after its heading. */
  lemma VibesSectionBlocks(points: seq<DailyMoodPoint>, dayName: Day -> string, fmt2: real -> string, k: nat)
    requires k <= |points|
    ensures var head := Line(VibesHeading) + Line("");
      head <= AppendBlocks(head, points[..k], dayName, fmt2) <= VibesSection(points, dayName, fmt2)
  {
    var head := Line(VibesHeading) + Line("");
    var part := AppendBlocks(head, points[..k], dayName, fmt2);
    var all := AppendBlocks(head, points, dayName, fmt2);
    var average := Line("**Weekly average mood: " + fmt2(WeeklyAverage(points)) + "**");
    AppendBlocksPrefix(head, points, dayName, fmt2, k);
    PrefixOfAppend(part, all, Line(""));
    PrefixOfAppend(part, all + Line(""), average);
    PrefixOfAppend(part, all + Line("") + average, Line(""));
  }

  /** The average line of a week loaded from the store is the mean of its
      seven scores: the week is never empty. */
  lemma WeeklyAverageOfLoadedWeek(p: Prefs, weekStart: Day, iso: Day -> string)
    ensures var points := LoadWeeklyMood(p, weekStart, WeeklyBaseline, iso);
      WeeklyAverage(points) * 7.0 == Sum(Scores(points))
  {
  }

  /** The weekly note's file name: "weekly-", the week start, ".md". */
  function WeeklyFileName(weekStart: Day, iso: Day -> string): (name: string)
    ensures name == NameOf("weekly-", iso(weekStart))
  {
    NameOf("weekly-", iso(weekStart))
  }

  /** A file name made of a prefix, a key and the `.md` extension. */
  function NameOf(prefix: string, key: string): (name: string)
    ensures |name| == |prefix| + |key| + 3
    ensures name[..|prefix|] == prefix && name[|prefix|..|prefix| + |key|] == key
    ensures name[|name| - 3..] == ".md"
  {
    prefix + key + ".md"
  }

  /* ---------------- the monthly note ---------------- */

  const MonthlyTitlePrefix: string := "# Monthly Reflection — "

  /** `exportMonthlyReflectionToObsidian`: `key` is the month as `yyyy-MM`
      and `title` as `MMMM yyyy`; the result is the file name and the text. */
  function MonthlyExport(key: string, title: string, content: string): (r: (string, string))
    ensures r.0 == NameOf("monthly-", key)
  {
    (NameOf("monthly-", key), MonthlyTitlePrefix + title + "\n\n" + content)
  }

  /** The monthly note is its heading followed by the reflection verbatim,
      so the reflection can be read back from the note. */
  lemma MonthlyContentRecoverable(key: string, title: string, content: string)
    ensures var text := MonthlyExport(key, title, content).1;
      var header := MonthlyTitlePrefix + title + "\n\n";
      header <= text && text[|header|..] == content
  {
    SuffixOfAppend(MonthlyTitlePrefix + title + "\n\n", content);
  }

  /** Different weeks, or different months, go to different files. */
  lemma FileNamesDistinct(weekA: Day, weekB: Day, iso: Day -> string, a: string, b: string,
                          c1: string, c2: string, t1: string, t2: string)
    requires iso(weekA) != iso(weekB)
    requires a != b
    ensures WeeklyFileName(weekA, iso) != WeeklyFileName(weekB, iso)
    ensures MonthlyExport(a, t1, c1).0 != MonthlyExport(b, t2, c2).0
  {
  }
}
