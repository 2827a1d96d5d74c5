/** The study helpers of the reminders screen: the Pomodoro timer's mode
    machine, the mm:ss clock text, the weekday picker and save rule of the
    reminder form, and the month grid and intensity scale of the study
    calendar. One timer tick is one call; the one-second interval that
    drives the ticks is outside the model. */
module SmartReminders {
  import opened Util
  import opened Types

  // ----- Pomodoro timer ------------------------------------------------------

  datatype PomodoroMode = Work | ShortBreak | LongBreak

  /** The length of each mode in seconds: 25, 5 and 15 minutes. */
  function Duration(mode: PomodoroMode): (seconds: int)
    ensures seconds >= 300
  {
    match mode
    case Work => 25 * 60
    case ShortBreak => 5 * 60
    case LongBreak => 15 * 60
  }

  /** What `onComplete` is told when a period ends. */
  datatype PeriodKind = WorkPeriod | BreakPeriod

  /** The timer's observable state. */
  datatype TimerState = TimerState(timeLeft: int, isRunning: bool, mode: PomodoroMode, completedPomodoros: int)

  /** A reachable timer shows between one second and its mode's full length. */
  predicate TimerValid(s: TimerState) {
    1 <= s.timeLeft <= Duration(s.mode) && s.completedPomodoros >= 0
  }

  /** `handleTimerComplete`: the timer stops; a finished work period counts
      one pomodoro and is followed by a long break every fourth time and a
      short one otherwise; a finished break is followed by work. The new
      mode starts at its full length. */
  function Completed(s: TimerState): (r: TimerState)
    ensures !r.isRunning && r.timeLeft == Duration(r.mode)
    ensures s.mode == Work ==> r.completedPomodoros == s.completedPomodoros + 1 && r.mode != Work
    ensures s.mode == Work ==> (r.mode == LongBreak <==> r.completedPomodoros % 4 == 0)
    ensures s.mode != Work ==> r.mode == Work && r.completedPomodoros == s.completedPomodoros
    ensures s.completedPomodoros >= 0 ==> TimerValid(r)
  {
    if s.mode == Work then
      var nextMode := if (s.completedPomodoros + 1) % 4 == 0 then LongBreak else ShortBreak;
      TimerState(Duration(nextMode), false, nextMode, s.completedPomodoros + 1)
    else
      TimerState(Duration(Work), false, Work, s.completedPomodoros)
  }

  /** One tick: one second less, or, at one second or less, the completion
      (the counter passes through 0 and the completion handler then sets
      the next mode's length). */
  function Ticked(s: TimerState): (r: TimerState)
    ensures s.timeLeft > 1 ==> r == s.(timeLeft := s.timeLeft - 1)
    ensures s.timeLeft <= 1 ==> r == Completed(s)
    ensures TimerValid(s) ==> TimerValid(r)
  {
    if s.timeLeft <= 1 then Completed(s) else s.(timeLeft := s.timeLeft - 1)
  }

  function TicksN(s: TimerState, n: nat): TimerState
    decreases n
  {
    if n == 0 then s else TicksN(Ticked(s), n - 1)
  }

  /** A period with `timeLeft` seconds left ends exactly at its
      `timeLeft`-th tick; before that the mode stays and the clock counts down. */
  lemma {:induction false} PeriodEndsOnTime(s: TimerState, k: nat)
    requires s.timeLeft >= 1
    ensures k < s.timeLeft ==> TicksN(s, k) == s.(timeLeft := s.timeLeft - k)
    ensures TicksN(s, s.timeLeft) == Completed(s)
    decreases s.timeLeft
  {
    if s.timeLeft > 1 {
      var s1 := s.(timeLeft := s.timeLeft - 1);
      PeriodEndsOnTime(s1, if k == 0 then 0 else k - 1);
      assert s1.(timeLeft := s1.timeLeft) == s1;
      assert Completed(s1) == Completed(s);
    }
  }

  /** Starting fresh, four work periods each followed by their break give
      three short breaks and then a long one. */
  lemma FourthBreakIsLong()
    ensures var s1 := Completed(TimerState(1500, true, Work, 0));
            var s2 := Completed(Completed(s1));
            var s3 := Completed(Completed(s2));
            var s4 := Completed(Completed(s3));
            s1.mode == ShortBreak && s2.mode == ShortBreak && s3.mode == ShortBreak &&
            s4.mode == LongBreak && s4.completedPomodoros == 4
  {
  }

  /** The Pomodoro timer component. */
  class PomodoroTimer {
    var timeLeft: int
    var isRunning: bool
    var currentMode: PomodoroMode
    var completedPomodoros: int

    function State(): TimerState
      reads this
    {
      TimerState(timeLeft, isRunning, currentMode, completedPomodoros)
    }

    constructor ()
      ensures State() == TimerState(25 * 60, false, Work, 0) && TimerValid(State())
    {
      timeLeft := 25 * 60;
      isRunning := false;
      currentMode := Work;
      completedPomodoros := 0;
    }

    /** `handleTimerComplete`; returns what `onComplete` is told. */
    method HandleTimerComplete() returns (finished: PeriodKind)
      modifies this
      ensures State() == Completed(old(State()))
      ensures finished == if old(currentMode) == Work then WorkPeriod else BreakPeriod
    {
      isRunning := false;
      if currentMode == Work {
        var nextMode := if (completedPomodoros + 1) % 4 == 0 then LongBreak else ShortBreak;
        completedPomodoros := completedPomodoros + 1;
        currentMode := nextMode;
        timeLeft := Duration(nextMode);
        finished := WorkPeriod;
      } else {
        currentMode := Work;
        timeLeft := Duration(Work);
        finished := BreakPeriod;
      }
    }

    /** One interval tick while running; reports the period that ended, if any. */
    method Tick() returns (finished: Option<PeriodKind>)
      requires isRunning
      modifies this
      ensures State() == Ticked(old(State()))
      ensures finished.Some? <==> old(timeLeft) <= 1
    {
      if timeLeft <= 1 {
        var kind := HandleTimerComplete();
        finished := Some(kind);
      } else {
        timeLeft := timeLeft - 1;
        finished := None;
      }
    }

    /** `toggleTimer`. */
    method ToggleTimer()
      modifies this
      ensures State() == old(State()).(isRunning := !old(isRunning))
    {
      isRunning := !isRunning;
    }

    /** `resetTimer`: stopped, back to the full length of the current mode. */
    method ResetTimer()
      modifies this
      ensures State() == old(State()).(isRunning := false, timeLeft := Duration(old(currentMode)))
      ensures old(completedPomodoros) >= 0 ==> TimerValid(State())
    {
      isRunning := false;
      timeLeft := Duration(currentMode);
    }

    /** `switchMode(mode)`: stopped, in `mode`, at its full length. */
    method SwitchMode(mode: PomodoroMode)
      modifies this
      ensures State() == old(State()).(isRunning := false, mode := mode, timeLeft := Duration(mode))
      ensures old(completedPomodoros) >= 0 ==> TimerValid(State())
    {
      isRunning := false;
      currentMode := mode;
      timeLeft := Duration(mode);
    }
  }

  // ----- Clock text ----------------------------------------------------------

  /** `formatTime(seconds)`: minutes and seconds, each padded to two digits. */
  function FormatTime(seconds: nat): string {
    PadTwo(NatToString(seconds / 60)) + ":" + PadTwo(NatToString(seconds % 60))
  }

  /** Reading a two-digit field back. */
  lemma PadTwoValue(n: nat)
    requires n < 100
    ensures |PadTwo(NatToString(n))| == 2 && IsDigits(PadTwo(NatToString(n)))
    ensures DigitsValue(PadTwo(NatToString(n))) == n
  {
    NatToStringRoundTrip(n);
    if n < 10 {
      ZeroPrefixValue(NatToString(n));
    }
  }

  /** Two two-character fields joined by a colon split back at the colon. */
  lemma ClockFields(mm: string, ss: string)
    requires |mm| == 2 && |ss| == 2
    ensures |mm + ":" + ss| == 5 && (mm + ":" + ss)[2] == ':'
    ensures (mm + ":" + ss)[..2] == mm && (mm + ":" + ss)[3..] == ss
  {
    var r := mm + ":" + ss;
    assert r[2] == (mm + ":")[2];
  }

  /** Below 100 minutes the text reads back as the number of seconds. */
  lemma FormatTimeRoundTrip(seconds: nat)
    requires seconds < 6000
    ensures |FormatTime(seconds)| == 5 && FormatTime(seconds)[2] == ':'
    ensures IsDigits(FormatTime(seconds)[..2]) && IsDigits(FormatTime(seconds)[3..])
    ensures DigitsValue(FormatTime(seconds)[..2]) * 60 + DigitsValue(FormatTime(seconds)[3..]) == seconds
  {
    var m := seconds / 60;
    var sec := seconds % 60;
    assert m < 100;
    PadTwoValue(m);
    PadTwoValue(sec);
    ClockFields(PadTwo(NatToString(m)), PadTwo(NatToString(sec)));
  }

  // ----- Reminder form -------------------------------------------------------

  predicate SortedDays(s: seq<int>) {
    forall i, j :: 0 <= i < j < |s| ==> s[i] <= s[j]
  }

  /** `x` inserted into a sorted list. */
  function InsertDay(x: int, s: seq<int>): (r: seq<int>)
    requires SortedDays(s)
    ensures SortedDays(r) && multiset(r) == multiset(s) + multiset{x}
    ensures r != [] && (r[0] == x || (s != [] && r[0] == s[0]))
  {
    if s == [] then [x]
    else if x <= s[0] then [x] + s
    else
      assert s == [s[0]] + s[1..];
      var rest := InsertDay(x, s[1..]);
      assert s[0] <= rest[0];
      [s[0]] + rest
  }

  /** Ascending sort. On weekdays 0 to 6 the default `Array.prototype.sort`
      compares one-digit decimal texts, which order like the numbers. */
  function SortDays(s: seq<int>): (r: seq<int>)
    ensures SortedDays(r) && multiset(r) == multiset(s)
  {
    if s == [] then []
    else
      assert s == [s[0]] + s[1..];
      InsertDay(s[0], SortDays(s[1..]))
  }

  /** The texts of two weekdays compare like the weekdays. */
  lemma WeekdayTextOrder(a: int, b: int)
    requires ValidWeekday(a) && ValidWeekday(b)
    ensures |NatToString(a)| == 1 && |NatToString(b)| == 1
    ensures NatToString(a)[0] < NatToString(b)[0] <==> a < b
  {
  }

  /** `toggleDay(day)`: removes the day if present, otherwise adds it and sorts. */
  function ToggleDay(days: seq<int>, day: int): (r: seq<int>)
    ensures day in days ==> r == Filter(days, (d: int) => d != day)
    ensures day !in days ==> SortedDays(r) && multiset(r) == multiset(days) + multiset{day}
    ensures (day in r) <==> (day !in days)
    ensures forall d :: d != day ==> (d in r <==> d in days)
  {
    if day in days then Filter(days, (d: int) => d != day)
    else
      var r := SortDays(days + [day]);
      assert forall d :: d in r <==> d in multiset(r);
      r
  }

  /** Toggling the same day twice gives back the same set of days. */
  lemma ToggleTwiceRestoresSet(days: seq<int>, day: int)
    ensures (set d | d in ToggleDay(ToggleDay(days, day), day)) == (set d | d in days)
  {
  }

  /** Toggling keeps the days within the week. */
  lemma ToggleKeepsWeekdays(days: seq<int>, day: int)
    requires ValidWeekday(day) && forall i :: 0 <= i < |days| ==> ValidWeekday(days[i])
    ensures forall i :: 0 <= i < |ToggleDay(days, day)| ==> ValidWeekday(ToggleDay(days, day)[i])
  {
    var r := ToggleDay(days, day);
    forall i | 0 <= i < |r| ensures ValidWeekday(r[i]) {
      assert r[i] in r;
    }
  }

  /** The form's save rule: at least one day and a message that is not blank. */
  function CanSaveReminder(days: seq<int>, message: string): (ok: bool)
    ensures ok <==> |days| > 0 && exists i :: 0 <= i < |message| && !IsSpace(message[i])
  {
    TrimEmptyIffBlank(message);
    |days| > 0 && Trim(message) != []
  }

  // ----- Study calendar ------------------------------------------------------

  /** `getDaysInMonth`: `startingDayOfWeek` empty cells, then the days 1 to
      `daysInMonth` in order. */
  method DaysInMonth(startingDayOfWeek: nat, daysInMonth: nat) returns (days: seq<Option<int>>)
    ensures |days| == startingDayOfWeek + daysInMonth
    ensures forall i :: 0 <= i < startingDayOfWeek ==> days[i] == None
    ensures forall i :: startingDayOfWeek <= i < |days| ==> days[i] == Some(i - startingDayOfWeek + 1)
  {
    days := [];
    var i := 0;
    while i < startingDayOfWeek
      invariant 0 <= i <= startingDayOfWeek && |days| == i
      invariant forall j :: 0 <= j < i ==> days[j] == None
    {
      days := days + [None];
      i := i + 1;
    }
    var day := 1;
    while day <= daysInMonth
      invariant 1 <= day <= daysInMonth + 1
      invariant |days| == startingDayOfWeek + day - 1
      invariant forall j :: 0 <= j < startingDayOfWeek ==> days[j] == None
      invariant forall i :: startingDayOfWeek <= i < |days| ==> days[i] == Some(i - startingDayOfWeek + 1)
    {
      days := days + [Some(day)];
      day := day + 1;
    }
  }

  /** `getIntensity`: 0 without a study entry for the day, else 1 to 4 by
      duration in minutes (below 30, 60, 120, and above). */
  function Intensity(duration: Option<int>): (v: int)
    ensures ValidIntensity(v)
    ensures v == 0 <==> duration.None?
    ensures duration.Some? && duration.value < 30 ==> v == 1
    ensures duration.Some? && duration.value >= 120 ==> v == 4
  {
    match duration
    case None => 0
    case Some(d) =>
      if d < 30 then 1
      else if d < 60 then 2
      else if d < 120 then 3
      else 4
  }

  /** More study time never lowers the intensity. */
  lemma IntensityMonotone(a: int, b: int)
    requires a <= b
    ensures Intensity(Some(a)) <= Intensity(Some(b))
  {
  }
}
