/** The learning heat map: one cell per day of the year, grouped into
    seven-day weeks for display, with the number of study days, the current
    streak ending today and the longest streak. A day counts as studied when
    its value is positive. The year's date strings and today's date are
    inputs (they come from the clock). */
module Heatmap {
  import opened Util
  import opened Types

  predicate Studied(d: HeatmapData) {
    d.value > 0
  }

  function NoActivity(): ActivityDetails {
    ActivityDetails(0, 0, 0, 0)
  }

  // ----- Runs of studied days ------------------------------------------------

  /** The number of studied days in a row that end just before index `n`. */
  function RunBefore(data: seq<HeatmapData>, n: nat): (k: nat)
    requires n <= |data|
    ensures k <= n
  {
    if n == 0 || !Studied(data[n - 1]) then 0 else RunBefore(data, n - 1) + 1
  }

  /** The longest run of studied days inside the first `n` days. */
  function Longest(data: seq<HeatmapData>, n: nat): (k: nat)
    requires n <= |data|
    ensures k <= n
  {
    if n == 0 then 0
    else
      var prev := Longest(data, n - 1);
      var run := RunBefore(data, n);
      if prev < run then run else prev
  }

  /** The `len` days from index `start` were all studied. */
  predicate StudiedStretch(data: seq<HeatmapData>, start: nat, len: nat) {
    start + len <= |data| && forall i :: start <= i < start + len ==> Studied(data[i])
  }

  /** The run counted by RunBefore is made of studied days. */
  lemma {:induction false} RunIsStudied(data: seq<HeatmapData>, n: nat)
    requires n <= |data|
    ensures StudiedStretch(data, n - RunBefore(data, n), RunBefore(data, n))
    decreases n
  {
    if n > 0 && Studied(data[n - 1]) {
      RunIsStudied(data, n - 1);
    }
  }

  /** Any studied stretch is at most the run that ends where it ends. */
  lemma {:induction false} StretchWithinRun(data: seq<HeatmapData>, start: nat, len: nat)
    requires StudiedStretch(data, start, len)
    ensures len <= RunBefore(data, start + len)
    decreases len
  {
    if len > 0 {
      StretchWithinRun(data, start, len - 1);
    }
  }

  /** Longest(data, n) is the length of the longest studied stretch in the
      first n days: every stretch fits in it and one stretch attains it. */
  lemma {:induction false} LongestIsMaximum(data: seq<HeatmapData>, n: nat)
    requires n <= |data|
    ensures forall start: nat, len: nat :: start + len <= n && StudiedStretch(data, start, len) ==> len <= Longest(data, n)
    ensures exists start: nat :: start + Longest(data, n) <= n && StudiedStretch(data, start, Longest(data, n))
    decreases n
  {
    if n == 0 {
      assert StudiedStretch(data, 0, 0);
    } else {
      LongestIsMaximum(data, n - 1);
      forall start: nat, len: nat | start + len <= n && StudiedStretch(data, start, len)
        ensures len <= Longest(data, n)
      {
        if start + len == n {
          StretchWithinRun(data, start, len);
        }
      }
      var l := Longest(data, n);
      if Longest(data, n - 1) < RunBefore(data, n) {
        RunIsStudied(data, n);
        assert StudiedStretch(data, n - l, l);
      } else {
        var start: nat :| start + Longest(data, n - 1) <= n - 1 && StudiedStretch(data, start, Longest(data, n - 1));
        assert StudiedStretch(data, start, l);
      }
    }
  }

  /** The longest streak is zero exactly when no day was studied. */
  lemma LongestZeroIffNoStudy(data: seq<HeatmapData>)
    ensures Longest(data, |data|) == 0 <==> forall i :: 0 <= i < |data| ==> !Studied(data[i])
  {
    LongestIsMaximum(data, |data|);
    if Longest(data, |data|) == 0 {
      assert forall i :: 0 <= i < |data| && Studied(data[i]) ==> StudiedStretch(data, i, 1);
    } else {
      var start: nat :| start + Longest(data, |data|) <= |data| && StudiedStretch(data, start, Longest(data, |data|));
      assert Studied(data[start]);
    }
  }

  /** A run before `k` is no longer than the longest run up to `m >= k`. */
  lemma {:induction false} RunWithinLongest(data: seq<HeatmapData>, k: nat, m: nat)
    requires k <= m <= |data|
    ensures RunBefore(data, k) <= Longest(data, m)
    decreases m
  {
    if k < m {
      RunWithinLongest(data, k, m - 1);
    }
  }

  /** `calculateLongestStreak`: one pass keeping the current run and the best. */
  method LongestStreak(data: seq<HeatmapData>) returns (longestStreak: nat)
    ensures longestStreak == Longest(data, |data|)
    ensures longestStreak <= |data|
  {
    longestStreak := 0;
    var currentStreak: nat := 0;
    var i := 0;
    while i < |data|
      invariant 0 <= i <= |data|
      invariant currentStreak == RunBefore(data, i)
      invariant longestStreak == Longest(data, i)
    {
      if data[i].value > 0 {
        currentStreak := currentStreak + 1;
        longestStreak := if longestStreak < currentStreak then currentStreak else longestStreak;
      } else {
        currentStreak := 0;
      }
      i := i + 1;
    }
  }

  /** `data.findIndex(d => d.date === date)`. */
  function FindDate(data: seq<HeatmapData>, date: string): (r: Option<nat>)
    ensures r.Some? ==> r.value < |data| && data[r.value].date == date &&
                        forall j :: 0 <= j < r.value ==> data[j].date != date
    ensures r.None? ==> forall j :: 0 <= j < |data| ==> data[j].date != date
  {
    if data == [] then None
    else if data[0].date == date then Some(0)
    else match FindDate(data[1..], date)
      case None => None
      case Some(k) => Some(k + 1)
  }

  /** `calculateCurrentStreak`: zero when today is not in the data, otherwise
      the studied days counted backwards from today's cell. */
  method CurrentStreak(data: seq<HeatmapData>, today: string) returns (streak: nat)
    ensures FindDate(data, today).None? ==> streak == 0
    ensures FindDate(data, today).Some? ==> streak == RunBefore(data, FindDate(data, today).value + 1)
  {
    var todayIndex := FindDate(data, today);
    if todayIndex.None? {
      return 0;
    }
    var t := todayIndex.value;
    streak := 0;
    var i := t;
    while i >= 0
      invariant -1 <= i <= t
      invariant streak == t - i
      invariant RunBefore(data, t + 1) >= streak
      invariant RunBefore(data, t + 1) == streak + RunBefore(data, i + 1)
      decreases i
    {
      if data[i].value > 0 {
        streak := streak + 1;
      } else {
        break;
      }
      i := i - 1;
    }
  }

  /** The current streak is at most today's position plus one and at most
      the longest streak over the same data. */
  lemma CurrentWithinLongest(data: seq<HeatmapData>, today: string)
    requires FindDate(data, today).Some?
    ensures RunBefore(data, FindDate(data, today).value + 1) <= FindDate(data, today).value + 1
    ensures RunBefore(data, FindDate(data, today).value + 1) <= Longest(data, |data|)
  {
    RunWithinLongest(data, FindDate(data, today).value + 1, |data|);
  }

  // ----- The year's cells ----------------------------------------------------

  /** `data.find(d => d.date === date)`. */
  function FindEntry(data: seq<HeatmapData>, date: string): (r: Option<HeatmapData>)
    ensures r.Some? ==> r.value in data && r.value.date == date
    ensures r.Some? ==> FindDate(data, date).Some? && r.value == data[FindDate(data, date).value]
    ensures r.None? ==> forall d :: d in data ==> d.date != date
  {
    match FindDate(data, date)
    case None => None
    case Some(k) => Some(data[k])
  }

  /** The cell used for a day without data. */
  function EmptyDay(date: string): HeatmapData {
    HeatmapData(date, 0, NoActivity())
  }

  /** The `yearData` fill: for each date of the year, the first entry with
      that date, or an empty cell. */
  method YearData(data: seq<HeatmapData>, dates: seq<string>) returns (yearDays: seq<HeatmapData>)
    ensures |yearDays| == |dates|
    ensures forall i :: 0 <= i < |dates| ==> yearDays[i].date == dates[i]
    ensures forall i :: 0 <= i < |dates| ==>
              (match FindEntry(data, dates[i])
               case Some(e) => yearDays[i] == e
               case None => yearDays[i] == EmptyDay(dates[i]))
  {
    yearDays := [];
    var i := 0;
    while i < |dates|
      invariant 0 <= i <= |dates| && |yearDays| == i
      invariant forall j :: 0 <= j < i ==> yearDays[j].date == dates[j]
      invariant forall j :: 0 <= j < i ==>
                  (match FindEntry(data, dates[j])
                   case Some(e) => yearDays[j] == e
                   case None => yearDays[j] == EmptyDay(dates[j]))
    {
      var existing := FindEntry(data, dates[i]);
      var cell := if existing.Some? then existing.value else EmptyDay(dates[i]);
      yearDays := yearDays + [cell];
      i := i + 1;
    }
  }

  /** `stats.totalDays`: the number of studied days. */
  function TotalDays(yearData: seq<HeatmapData>): (n: nat)
    ensures n <= |yearData|
    ensures n == |Filter(yearData, Studied)|
  {
    CountIsFilterLength(yearData, Studied);
    Count(yearData, Studied)
  }

  /** A run of studied days is never longer than the number of studied days. */
  lemma {:induction false} RunWithinCount(data: seq<HeatmapData>, n: nat)
    requires n <= |data|
    ensures RunBefore(data, n) <= TotalDays(data[..n])
    decreases n
  {
    if n > 0 {
      RunWithinCount(data, n - 1);
      assert data[..n] == data[..n - 1] + [data[n - 1]];
      FilterAppend(data[..n - 1], [data[n - 1]], Studied);
    }
  }

  lemma {:induction false} CountPrefixMonotone(data: seq<HeatmapData>, m: nat, n: nat)
    requires m <= n <= |data|
    ensures TotalDays(data[..m]) <= TotalDays(data[..n])
    decreases n
  {
    if m < n {
      CountPrefixMonotone(data, m, n - 1);
      assert data[..n] == data[..n - 1] + [data[n - 1]];
      FilterAppend(data[..n - 1], [data[n - 1]], Studied);
    }
  }

  /** The longest streak never exceeds the number of study days. */
  lemma {:induction false} LongestWithinTotal(data: seq<HeatmapData>, n: nat)
    requires n <= |data|
    ensures Longest(data, n) <= TotalDays(data[..n])
    decreases n
  {
    if n > 0 {
      LongestWithinTotal(data, n - 1);
      CountPrefixMonotone(data, n - 1, n);
      RunWithinCount(data, n);
    }
  }

  // ----- Weeks -------------------------------------------------------------

  /** The padding cell of the week grid. */
  function Blank(): HeatmapData {
    HeatmapData("", -1, NoActivity())
  }

  function Blanks(n: nat): (r: seq<HeatmapData>)
    ensures |r| == n && forall i :: 0 <= i < n ==> r[i] == Blank()
  {
    seq(n, i => Blank())
  }

  /** The weeks laid end to end. */
  function Flatten(weeks: seq<seq<HeatmapData>>): seq<HeatmapData> {
    if weeks == [] then [] else Flatten(weeks[..|weeks| - 1]) + weeks[|weeks| - 1]
  }

  lemma FlattenAppend(weeks: seq<seq<HeatmapData>>, w: seq<HeatmapData>)
    ensures Flatten(weeks + [w]) == Flatten(weeks) + w
  {
    assert (weeks + [w])[..|weeks|] == weeks;
  }

  /** Every week has seven cells. */
  predicate FullWeeks(weeks: seq<seq<HeatmapData>>) {
    forall k :: 0 <= k < |weeks| ==> |weeks[k]| == 7
  }

  lemma AppendFullWeek(weeks: seq<seq<HeatmapData>>, w: seq<HeatmapData>)
    requires FullWeeks(weeks) && |w| == 7
    ensures FullWeeks(weeks + [w])
  {
  }

  lemma {:induction false} FlattenLength(weeks: seq<seq<HeatmapData>>)
    requires FullWeeks(weeks)
    ensures |Flatten(weeks)| == 7 * |weeks|
  {
    if weeks != [] {
      FlattenLength(weeks[..|weeks| - 1]);
    }
  }

  /** The blanks that complete the last week after `lead + n` cells. */
  function TrailingBlanks(lead: nat, n: nat): (p: nat)
    ensures p < 7 && (lead + n + p) % 7 == 0
  {
    (7 - (lead + n) % 7) % 7
  }

  /** One more cell on the open week extends the laid-out cells by it. */
  lemma PushCell(flat: seq<HeatmapData>, week: seq<HeatmapData>, laid: seq<HeatmapData>, x: HeatmapData)
    requires flat + week == laid
    ensures flat + (week + [x]) == laid + [x]
  {
  }

  lemma PrefixStep(front: seq<HeatmapData>, s: seq<HeatmapData>, j: nat)
    requires j < |s|
    ensures front + s[..j] + [s[j]] == front + s[..j + 1]
  {
    assert s[..j + 1] == s[..j] + [s[j]];
  }

  /** The open week after the year's cells holds the remainder modulo 7. */
  lemma OpenWeekIsRemainder(total: nat, weeks: nat, open: nat)
    requires total == 7 * weeks + open && open < 7
    ensures open == total % 7
  {
  }

  /** `weekData`: `firstDayOfWeek` blanks (the weekday of January 1st, 0 for
      Sunday), then the year's cells, then blanks up to the end of the last
      week; cut into weeks of seven. */
  method WeekData(yearData: seq<HeatmapData>, firstDayOfWeek: nat) returns (weeks: seq<seq<HeatmapData>>)
    requires firstDayOfWeek <= 6
    ensures FullWeeks(weeks)
    ensures Flatten(weeks) == Blanks(firstDayOfWeek) + yearData + Blanks(TrailingBlanks(firstDayOfWeek, |yearData|))
    ensures 7 * |weeks| == firstDayOfWeek + |yearData| + TrailingBlanks(firstDayOfWeek, |yearData|)
  {
    weeks := [];
    var currentWeek: seq<HeatmapData> := [];
    var i := 0;
    while i < firstDayOfWeek
      invariant 0 <= i <= firstDayOfWeek && currentWeek == Blanks(i)
    {
      currentWeek := currentWeek + [Blank()];
      i := i + 1;
    }
    var j := 0;
    while j < |yearData|
      invariant 0 <= j <= |yearData|
      invariant FullWeeks(weeks)
      invariant |currentWeek| < 7
      invariant Flatten(weeks) + currentWeek == Blanks(firstDayOfWeek) + yearData[..j]
    {
      PushCell(Flatten(weeks), currentWeek, Blanks(firstDayOfWeek) + yearData[..j], yearData[j]);
      PrefixStep(Blanks(firstDayOfWeek), yearData, j);
      currentWeek := currentWeek + [yearData[j]];
      if |currentWeek| == 7 {
        FlattenAppend(weeks, currentWeek);
        AppendFullWeek(weeks, currentWeek);
        weeks := weeks + [currentWeek];
        currentWeek := [];
      }
      j := j + 1;
    }
    assert yearData[..j] == yearData;
    FlattenLength(weeks);
    ghost var filled := |currentWeek|;
    OpenWeekIsRemainder(firstDayOfWeek + |yearData|, |weeks|, filled);
    var pad := 0;
    while |currentWeek| < 7 && |currentWeek| > 0
      invariant |currentWeek| == 0 || filled + pad == |currentWeek| <= 7
      invariant filled == 0 ==> pad == 0
      invariant Flatten(weeks) + currentWeek == Blanks(firstDayOfWeek) + yearData + Blanks(pad)
      decreases 7 - |currentWeek|
    {
      assert Blanks(pad + 1) == Blanks(pad) + [Blank()];
      PushCell(Flatten(weeks), currentWeek, Blanks(firstDayOfWeek) + yearData + Blanks(pad), Blank());
      currentWeek := currentWeek + [Blank()];
      pad := pad + 1;
    }
    assert pad == TrailingBlanks(firstDayOfWeek, |yearData|);
    if |currentWeek| > 0 {
      FlattenAppend(weeks, currentWeek);
      AppendFullWeek(weeks, currentWeek);
      weeks := weeks + [currentWeek];
    }
    FlattenLength(weeks);
  }

  predicate NotBlank(d: HeatmapData) {
    d.value != -1
  }

  /** Dropping the padding cells of the week grid gives back the year's cells
      in order, since no real cell has the value -1. */
  lemma DroppingBlanksRestoresYear(yearData: seq<HeatmapData>, lead: nat, trail: nat)
    requires forall i :: 0 <= i < |yearData| ==> yearData[i].value >= 0
    ensures Filter(Blanks(lead) + yearData + Blanks(trail), NotBlank) == yearData
  {
    var front := Blanks(lead) + yearData;
    FilterAppend(front, Blanks(trail), NotBlank);
    FilterAppend(Blanks(lead), yearData, NotBlank);
    FilterAll(yearData, NotBlank);
    NoBlankSurvives(lead);
    NoBlankSurvives(trail);
    assert Filter(front, NotBlank) == yearData;
  }

  lemma {:induction false} NoBlankSurvives(n: nat)
    ensures Filter(Blanks(n), NotBlank) == []
  {
    if n > 0 {
      assert Blanks(n) == [Blank()] + Blanks(n - 1);
      FilterAppend([Blank()], Blanks(n - 1), NotBlank);
      NoBlankSurvives(n - 1);
    }
  }
}
