/** The Mood Trends screen (WeeklyMoodBarChart.kt): the bar chart of a week,
    a month or a year, the tap that opens a day, the averages shown under the
    chart and the navigation between periods. */
module Trends {

  import opened Wrappers
  import opened Model
  import opened LedgerStore
  import InfluenceMath

  datatype TrendsRange = Week | Month | Year

  /** `slotCount`: the number of bar slots the chart lays out. */
  function SlotCount(range: TrendsRange): (n: nat)
    ensures n == 7 <==> range == Week
    ensures n == 5 <==> range == Month
    ensures n == 12 <==> range == Year
  {
    match range
    case Year => 12
    case Month => 5
    case Week => 7
  }

  /* ---------------- bar layout ---------------- */

  /** A bar is 1/1.6 of a slot and the gap before it is 0.6 of a bar. */
  function BarWidth(width: real, slots: nat): real
    requires slots > 0
  {
    width / (slots as real * 1.6)
  }

  function Spacing(width: real, slots: nat): real
    requires slots > 0
  {
    BarWidth(width, slots) * 0.6
  }

  /** The left edge of bar `k`. */
  function BarLeft(width: real, slots: nat, k: int): real
    requires slots > 0
  {
    Spacing(width, slots) + k as real * (BarWidth(width, slots) + Spacing(width, slots))
  }

  /** Each slot is one bar and one gap wide, the slots fill the canvas, and the
      last slot's bar ends exactly at the right edge. */
  lemma LastBarEndsAtWidth(width: real, slots: nat)
    requires slots > 0
    ensures BarWidth(width, slots) + Spacing(width, slots) == width / slots as real
    ensures BarLeft(width, slots, slots - 1) + BarWidth(width, slots) == width
  {
    var n := slots as real;
    var bw := BarWidth(width, slots);
    assert bw * (n * 1.6) == width;
    assert bw + bw * 0.6 == bw * 1.6;
    assert (bw * 1.6) * n == width;
    calc {
      BarLeft(width, slots, slots - 1) + bw;
      bw * 0.6 + (n - 1.0) * (bw * 1.6) + bw;
      (bw * 1.6) * n;
    }
  }

  /** `a / d` lies in [k, k + 1) when `a` lies in [k·d, (k + 1)·d). */
  lemma QuotientBetween(a: real, d: real, k: int)
    requires d > 0.0
    requires k as real * d <= a < (k as real + 1.0) * d
    ensures k as real <= a / d < k as real + 1.0
  {
    var q := a / d;
    assert q * d == a;
    var gap := k as real + 1.0 - q;
    assert gap * d == (k as real + 1.0) * d - a;
    assert gap * d > 0.0;
  }

  /** The slot index of a tap at `x`: `((x - spacing) / (barWidth + spacing)).toInt()`.
      On a canvas of width 0 the quotient is infinite, or NaN at `x = 0`,
      which `toInt` turns into the largest or smallest `Int`, or 0. */
  function TapIndex(x: real, width: real, slots: nat): (index: int)
    requires slots > 0
    ensures InfluenceMath.IntMin <= index <= InfluenceMath.IntMax
  {
    var sp := Spacing(width, slots);
    var d := BarWidth(width, slots) + sp;
    if d == 0.0 then
      (if x - sp == 0.0 then 0 else if x - sp > 0.0 then InfluenceMath.IntMax else InfluenceMath.IntMin)
    else InfluenceMath.ToInt((x - sp) / d)
  }

  /** A tap on bar `k`, or in the gap after it, selects slot `k`. */
  lemma TapOnBarOrGap(x: real, width: real, slots: nat, k: nat)
    requires slots > 0 && width > 0.0 && k <= InfluenceMath.IntMax
    requires BarLeft(width, slots, k) <= x < BarLeft(width, slots, k + 1)
    ensures TapIndex(x, width, slots) == k
  {
    var bw := BarWidth(width, slots);
    var sp := Spacing(width, slots);
    assert bw > 0.0;
    QuotientBetween(x - sp, bw + sp, k);
  }

  /** A tap in the margin left of the first bar also selects slot 0: the
      quotient is negative there but above -1, and `toInt` truncates. */
  lemma TapLeftOfFirstBar(x: real, width: real, slots: nat)
    requires slots > 0 && width > 0.0
    requires 0.0 <= x < Spacing(width, slots)
    ensures TapIndex(x, width, slots) == 0
  {
    var bw := BarWidth(width, slots);
    var sp := Spacing(width, slots);
    var d := bw + sp;
    assert bw > 0.0;
    var q := (x - sp) / d;
    QuotientBetween(x - sp, d, -1);
    assert q * d == x - sp;
    assert q != -1.0;
  }

  /* ---------------- tapping a day ---------------- */

  /** The points not after today. */
  function VisibleData(data: seq<DailyMoodPoint>, today: Day): (r: seq<DailyMoodPoint>)
    ensures forall point :: point in r <==> point in data && point.date <= today
    ensures |r| <= |data|
  {
    if data == [] then []
    else
      var rest := VisibleData(data[1..], today);
      assert forall point :: point in data <==> point == data[0] || point in data[1..];
      if data[0].date <= today then [data[0]] + rest else rest
  }

  /** The day a tap opens, if any: the visible point under the tapped slot,
      unless it lies in the future. */
  function TapTarget(data: seq<DailyMoodPoint>, today: Day, x: real, width: real, range: TrendsRange): (day: Option<Day>)
    ensures day.Some? ==> day.value <= today && exists point :: point in data && point.date == day.value
  {
    var visible := VisibleData(data, today);
    var index := TapIndex(x, width, SlotCount(range));
    if 0 <= index < |visible| && !(visible[index].date > today) then Some(visible[index].date) else None
  }

  /** A tap opens a day exactly when it hits a slot that holds a visible
      point; that day is the point's, and never in the future (the second
      guard in the tap handler can never fail when one clock reading serves
      both). */
  lemma TapTargetSpec(data: seq<DailyMoodPoint>, today: Day, x: real, width: real, range: TrendsRange)
    ensures var visible := VisibleData(data, today);
      var index := TapIndex(x, width, SlotCount(range));
      && (TapTarget(data, today, x, width, range).Some? <==> 0 <= index < |visible|)
      && (TapTarget(data, today, x, width, range).Some? ==>
            var day := TapTarget(data, today, x, width, range).value;
            day == visible[index].date && day <= today && exists point :: point in data && point.date == day)
  {
    var visible := VisibleData(data, today);
    var index := TapIndex(x, width, SlotCount(range));
    if 0 <= index < |visible| {
      assert visible[index] in visible;
    }
  }

  /* ---------------- averages ---------------- */

  /** The score of one day, as the trend averages compute it. */
  function ScoreOfDay(p: Prefs, iso: Day -> string, day: Day): real {
    DayScore(Baseline, LoadEntriesForDay(p, iso(day)), LoadDailyReflection(p, iso(day)))
  }

  /** The scores of the days `start..end`, one per day, in order. */
  function DailyScores(p: Prefs, iso: Day -> string, start: Day, end: Day): (s: seq<real>)
    ensures start > end ==> s == []
    ensures start <= end ==> |s| == end - start + 1
    ensures forall k :: 0 <= k < |s| ==> s[k] == ScoreOfDay(p, iso, start + k)
  {
    if start > end then [] else seq(end - start + 1, k requires 0 <= k <= end - start => ScoreOfDay(p, iso, start + k))
  }

  /** `computeDailyAverage(start, end)`: walks the days from `start` to `end`,
      collecting each day's score; the mean of them, or nothing for an empty
      range. */
  method ComputeDailyAverage(p: Prefs, iso: Day -> string, start: Day, end: Day) returns (avg: Option<real>)
    ensures start > end ==> avg == None
    ensures start <= end ==> avg == Some(Mean(DailyScores(p, iso, start, end)))
  {
    var scores: seq<real> := [];
    var day := start;
    while !(day > end)
      invariant start <= end ==> start <= day <= end + 1
      invariant start > end ==> day == start
      invariant |scores| == day - start
      invariant forall k :: 0 <= k < |scores| ==> scores[k] == ScoreOfDay(p, iso, start + k)
      decreases end - day
    {
      var dayKey := iso(day);
      var entries := LoadEntriesForDay(p, dayKey);
      var reflection := LoadDailyReflection(p, dayKey);
      var computed := Baseline + SumDeltas(entries);
      var final := if reflection.Some? then computed + reflection.value.drift else computed;
      scores := scores + [final];
      day := day + 1;
    }
    if scores != [] {
      assert scores == DailyScores(p, iso, start, end);
      avg := Some(Mean(scores));
    } else {
      avg := None;
    }
  }

  /** A period in which nothing was logged and no reflection written
      averages exactly the baseline. */
  lemma QuietPeriodAveragesBaseline(p: Prefs, iso: Day -> string, start: Day, end: Day)
    requires start <= end
    requires forall d :: start <= d <= end ==>
      LoadEntriesForDay(p, iso(d)) == [] && LoadDailyReflection(p, iso(d)) == None
    ensures Mean(DailyScores(p, iso, start, end)) == Baseline
  {
    var s := DailyScores(p, iso, start, end);
    forall k | 0 <= k < |s|
      ensures Baseline <= s[k] <= Baseline
    {
      assert LoadEntriesForDay(p, iso(start + k)) == [];
    }
    MeanBounds(s, Baseline, Baseline);
  }

  /** The average shown under the weekly chart: the mean score of the days
      up to today, or 0 when every day is still to come. */
  function WeeklyAverage(data: seq<DailyMoodPoint>, today: Day): (avg: real)
    ensures VisibleData(data, today) == [] ==> avg == 0.0
    ensures VisibleData(data, today) != [] ==> avg == Mean(Scores(VisibleData(data, today)))
  {
    var completed := VisibleData(data, today);
    if completed != [] then Mean(Scores(completed)) else 0.0
  }

  /** The weekly average lies between the lowest and the highest score of
      the days it averages, and points dated after today do not move it. */
  lemma WeeklyAverageSpec(data: seq<DailyMoodPoint>, today: Day, lo: real, hi: real, future: seq<DailyMoodPoint>)
    requires forall point :: point in data && point.date <= today ==> lo <= point.score <= hi
    requires VisibleData(data, today) != []
    requires forall point :: point in future ==> point.date > today
    ensures lo <= WeeklyAverage(data, today) <= hi
    ensures WeeklyAverage(data + future, today) == WeeklyAverage(data, today)
  {
    var completed := VisibleData(data, today);
    var s := Scores(completed);
    forall k | 0 <= k < |s|
      ensures lo <= s[k] <= hi
    {
      assert completed[k] in completed;
    }
    MeanBounds(s, lo, hi);
    VisibleOfFuture(data, future, today);
  }

  lemma {:induction false} VisibleOfFuture(data: seq<DailyMoodPoint>, future: seq<DailyMoodPoint>, today: Day)
    requires forall point :: point in future ==> point.date > today
    ensures VisibleData(data + future, today) == VisibleData(data, today)
  {
    if data == [] {
      VisibleOfFutureOnly(future, today);
      assert data + future == future;
    } else {
      assert (data + future)[1..] == data[1..] + future;
      VisibleOfFuture(data[1..], future, today);
    }
  }

  lemma {:induction false} VisibleOfFutureOnly(future: seq<DailyMoodPoint>, today: Day)
    requires forall point :: point in future ==> point.date > today
    ensures VisibleData(future, today) == []
  {
    if future != [] {
      assert forall point :: point in future[1..] ==> point in future;
      VisibleOfFutureOnly(future[1..], today);
    }
  }

  /* ---------------- navigation ---------------- */

  /** `?.note ?: ""`: the note of a stored reflection, or nothing. */
  function WeeklyNote(reflection: Option<WeeklyReflection>): (note: string)
    ensures reflection.None? ==> note == ""
    ensures reflection.Some? ==> note == reflection.value.note
  {
    if reflection.Some? then reflection.value.note else ""
  }

  function MonthlyNote(reflection: Option<MonthlyReflection>): (note: string)
    ensures reflection.None? ==> note == ""
    ensures reflection.Some? ==> note == reflection.value.note
  {
    if reflection.Some? then reflection.value.note else ""
  }

  /** The screen's navigation state and what it shows. A month is counted as
      `12·year + month`, so the month after December is January of the next
      year. The store is the one the screen reads; `iso` names a day's key,
      `monthKey` a month's yyyy-MM key, and `monthlyMood` and `yearlyMood`
      stand for the store's month and year loads. */
  class TrendsScreen {
    const store: Prefs
    const iso: Day -> string
    const monthKey: int -> string
    const monthlyMood: int -> seq<DailyMoodPoint>
    const yearlyMood: int -> seq<DailyMoodPoint>
    var range: TrendsRange
    var weekStart: Day
    var visibleMonth: int
    var visibleYear: int
    var data: seq<DailyMoodPoint>
    var weeklyReflection: string
    var monthlyReflection: string

    /** The bars of a range at a position: the week's seven stored scores,
        or the month's or the year's load. */
    function DataFor(r: TrendsRange, ws: Day, vm: int, vy: int): (points: seq<DailyMoodPoint>)
      ensures r == Week ==> points == LoadWeeklyMood(store, ws, Baseline, iso)
      ensures r == Month ==> points == monthlyMood(vm)
      ensures r == Year ==> points == yearlyMood(vy)
    {
      match r
      case Week => LoadWeeklyMood(store, ws, Baseline, iso)
      case Month => monthlyMood(vm)
      case Year => yearlyMood(vy)
    }

    /** The bars shown are those of the range and position shown. */
    predicate ShowsPeriod()
      reads this
    {
      data == DataFor(range, weekStart, visibleMonth, visibleYear)
    }

    /** The screen opens on the week view of `initialWeekStart`, with that
        week's bars and weekly reflection loaded. */
    constructor (store: Prefs, iso: Day -> string, monthKey: int -> string,
                 monthlyMood: int -> seq<DailyMoodPoint>, yearlyMood: int -> seq<DailyMoodPoint>,
                 initialWeekStart: Day, initialMonth: int, initialYear: int)
      ensures this.store == store && this.iso == iso && this.monthKey == monthKey
      ensures this.monthlyMood == monthlyMood && this.yearlyMood == yearlyMood
      ensures range == Week && weekStart == initialWeekStart
      ensures visibleMonth == initialMonth && visibleYear == initialYear
      ensures data == LoadWeeklyMood(store, initialWeekStart, Baseline, iso)
      ensures weeklyReflection == WeeklyNote(LoadWeeklyReflection(store, iso(initialWeekStart)))
      ensures monthlyReflection == ""
      ensures ShowsPeriod()
    {
      this.store := store;
      this.iso := iso;
      this.monthKey := monthKey;
      this.monthlyMood := monthlyMood;
      this.yearlyMood := yearlyMood;
      range := Week;
      weekStart := initialWeekStart;
      visibleMonth := initialMonth;
      visibleYear := initialYear;
      data := LoadWeeklyMood(store, initialWeekStart, Baseline, iso);
      weeklyReflection := WeeklyNote(LoadWeeklyReflection(store, iso(initialWeekStart)));
      monthlyReflection := "";
    }

    /** The effect keyed on the range and the position: the bars of the
        period shown are loaded, and the week's or the month's reflection
        with them. */
    method Reload()
      modifies this
      ensures ShowsPeriod()
      ensures range == Week ==> weeklyReflection == WeeklyNote(LoadWeeklyReflection(store, iso(weekStart)))
      ensures range != Week ==> weeklyReflection == old(weeklyReflection)
      ensures range == Month ==> monthlyReflection == MonthlyNote(LoadMonthlyReflection(store, monthKey(visibleMonth)))
      ensures range != Month ==> monthlyReflection == old(monthlyReflection)
      ensures range == old(range) && weekStart == old(weekStart)
      ensures visibleMonth == old(visibleMonth) && visibleYear == old(visibleYear)
    {
      data := DataFor(range, weekStart, visibleMonth, visibleYear);
      if range == Week {
        weeklyReflection := WeeklyNote(LoadWeeklyReflection(store, iso(weekStart)));
      }
      if range == Month {
        monthlyReflection := MonthlyNote(LoadMonthlyReflection(store, monthKey(visibleMonth)));
      }
    }

    /** A segmented button. Choosing the range already shown changes nothing;
        another range drops the old bars, moves the month and year views to
        the current month or year, and loads the bars of the new period. */
    method OnRangeChange(newRange: TrendsRange, currentMonth: int, currentYear: int)
      modifies this
      ensures newRange == old(range) ==>
        data == old(data) && visibleMonth == old(visibleMonth) && visibleYear == old(visibleYear)
        && weeklyReflection == old(weeklyReflection) && monthlyReflection == old(monthlyReflection)
      ensures range == newRange && weekStart == old(weekStart)
      ensures newRange != old(range) && newRange == Month ==> visibleMonth == currentMonth
      ensures newRange != old(range) && newRange == Year ==> visibleYear == currentYear
      ensures newRange != Month ==> visibleMonth == old(visibleMonth)
      ensures newRange != Year ==> visibleYear == old(visibleYear)
      ensures newRange != old(range) ==> ShowsPeriod()
      ensures newRange == Week && newRange != old(range) ==>
        data == LoadWeeklyMood(store, weekStart, Baseline, iso)
        && weeklyReflection == WeeklyNote(LoadWeeklyReflection(store, iso(weekStart)))
      ensures newRange == Month && newRange != old(range) ==>
        data == monthlyMood(currentMonth)
        && monthlyReflection == MonthlyNote(LoadMonthlyReflection(store, monthKey(currentMonth)))
      ensures newRange == Year && newRange != old(range) ==> data == yearlyMood(currentYear)
      ensures old(ShowsPeriod()) ==> ShowsPeriod()
    {
      if newRange != range {
        range := newRange;
        data := [];
        match newRange {
          case Month => visibleMonth := currentMonth;
          case Year => visibleYear := currentYear;
          case Week =>
        }
        Reload();
      }
    }

    method OnPreviousWeek()
      modifies this
      ensures weekStart == old(weekStart) - 7
      ensures range == old(range) && visibleMonth == old(visibleMonth) && visibleYear == old(visibleYear)
      ensures ShowsPeriod()
      ensures range == Week ==> (data == LoadWeeklyMood(store, weekStart, Baseline, iso)
        && weeklyReflection == WeeklyNote(LoadWeeklyReflection(store, iso(weekStart))))
      ensures monthlyReflection == old(monthlyReflection) || range == Month
    {
      weekStart := weekStart - 7;
      Reload();
    }

    method OnNextWeek()
      modifies this
      ensures weekStart == old(weekStart) + 7
      ensures range == old(range) && visibleMonth == old(visibleMonth) && visibleYear == old(visibleYear)
      ensures ShowsPeriod()
      ensures range == Week ==> (data == LoadWeeklyMood(store, weekStart, Baseline, iso)
        && weeklyReflection == WeeklyNote(LoadWeeklyReflection(store, iso(weekStart))))
      ensures monthlyReflection == old(monthlyReflection) || range == Month
    {
      weekStart := weekStart + 7;
      Reload();
    }

    method OnPreviousMonth()
      modifies this
      ensures visibleMonth == old(visibleMonth) - 1
      ensures range == old(range) && weekStart == old(weekStart) && visibleYear == old(visibleYear)
      ensures ShowsPeriod()
      ensures range == Month ==> (data == monthlyMood(visibleMonth)
        && monthlyReflection == MonthlyNote(LoadMonthlyReflection(store, monthKey(visibleMonth))))
      ensures weeklyReflection == old(weeklyReflection) || range == Week
    {
      visibleMonth := visibleMonth - 1;
      Reload();
    }

    /** "Next" moves on only while the next month does not start after the
        current one, so the month view never passes the current month. When
        it does not move, nothing is reloaded. */
    method OnNextMonth(currentMonth: int)
      modifies this
      ensures old(visibleMonth) + 1 <= currentMonth ==> visibleMonth == old(visibleMonth) + 1
      ensures old(visibleMonth) + 1 > currentMonth ==> visibleMonth == old(visibleMonth)
      ensures old(visibleMonth) <= currentMonth ==> visibleMonth <= currentMonth
      ensures range == old(range) && weekStart == old(weekStart) && visibleYear == old(visibleYear)
      ensures old(visibleMonth) + 1 <= currentMonth ==> ShowsPeriod()
      ensures old(visibleMonth) + 1 <= currentMonth && range == Month ==> (data == monthlyMood(visibleMonth)
        && monthlyReflection == MonthlyNote(LoadMonthlyReflection(store, monthKey(visibleMonth))))
      ensures old(visibleMonth) + 1 > currentMonth ==>
        data == old(data) && weeklyReflection == old(weeklyReflection) && monthlyReflection == old(monthlyReflection)
      ensures old(ShowsPeriod()) ==> ShowsPeriod()
    {
      var next := visibleMonth + 1;
      if !(next > currentMonth) {
        visibleMonth := next;
        Reload();
      }
    }

    method OnPreviousYear()
      modifies this
      ensures visibleYear == old(visibleYear) - 1
      ensures range == old(range) && weekStart == old(weekStart) && visibleMonth == old(visibleMonth)
      ensures ShowsPeriod()
      ensures range == Year ==> data == yearlyMood(visibleYear)
      ensures range == Year ==> weeklyReflection == old(weeklyReflection) && monthlyReflection == old(monthlyReflection)
    {
      visibleYear := visibleYear - 1;
      Reload();
    }

    /** "Next" moves on only while the year shown is before the current one.
        When it does not move, nothing is reloaded. */
    method OnNextYear(currentYear: int)
      modifies this
      ensures old(visibleYear) < currentYear ==> visibleYear == old(visibleYear) + 1
      ensures old(visibleYear) >= currentYear ==> visibleYear == old(visibleYear)
      ensures old(visibleYear) <= currentYear ==> visibleYear <= currentYear
      ensures range == old(range) && weekStart == old(weekStart) && visibleMonth == old(visibleMonth)
      ensures old(visibleYear) < currentYear ==> ShowsPeriod()
      ensures old(visibleYear) < currentYear && range == Year ==> data == yearlyMood(visibleYear)
      ensures old(visibleYear) >= currentYear ==>
        data == old(data) && weeklyReflection == old(weeklyReflection) && monthlyReflection == old(monthlyReflection)
      ensures old(ShowsPeriod()) ==> ShowsPeriod()
    {
      if visibleYear < currentYear {
        visibleYear := visibleYear + 1;
        Reload();
      }
    }
  }
}
